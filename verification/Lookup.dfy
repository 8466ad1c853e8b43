/** The three ways of finding a term, and the structure check that runs before any of them. */
module Lookup {
  import opened Wrappers
  import opened Text
  import opened LittleEndian
  import opened Strings
  import opened Layout
  import opened Bundle
  import opened Mph

  const TOP_SHIFT := 0x1_0000_0000_0000

  /** XXH3 of a term: any 64-bit function. */
  type Hash = Text -> nat

  /** The top sixteen bits of a hash. */
  function Top(hash: nat): nat {
    hash / TOP_SHIFT
  }

  /* ---- The fanout. ---- */

  function CountBelow(terms: seq<TermEntry>, bucket: nat): nat {
    if terms == [] then 0
    else (if Top(terms[0].hash) < bucket then 1 else 0) + CountBelow(terms[1..], bucket)
  }

  ghost predicate HashSorted(terms: seq<TermEntry>) {
    forall i, j :: 0 <= i < j < |terms| ==> terms[i].hash <= terms[j].hash
  }

  /** `n` cuts the sorted terms into those below `bucket` and the rest. */
  ghost predicate Cuts(terms: seq<TermEntry>, bucket: nat, n: nat) {
    && n <= |terms|
    && (forall i :: 0 <= i < n ==> Top(terms[i].hash) < bucket)
    && (forall i :: n <= i < |terms| ==> Top(terms[i].hash) >= bucket)
  }

  /** The cut is the count, so it is unique. */
  lemma {:induction false} CutCounts(terms: seq<TermEntry>, bucket: nat, n: nat)
    requires Cuts(terms, bucket, n)
    ensures n == CountBelow(terms, bucket)
  {
    if terms != [] {
      if n > 0 {
        assert Top(terms[0].hash) < bucket;
        CutCounts(terms[1..], bucket, n - 1);
      } else {
        assert Top(terms[0].hash) >= bucket;
        CutCounts(terms[1..], bucket, 0);
      }
    }
  }

  /** `make_fanout`: entry `b` counts the terms whose top sixteen hash bits are below `b`. */
  method MakeFanout(terms: seq<TermEntry>) returns (fanout: seq<nat>)
    requires HashSorted(terms)
    ensures |fanout| == FANOUT_LEN
    ensures forall b :: 0 <= b < FANOUT_LEN ==> Cuts(terms, b, fanout[b])
    ensures forall b :: 0 <= b < FANOUT_LEN ==> fanout[b] == CountBelow(terms, b)
  {
    fanout := [];
    var termIndex := 0;
    var bucket := 0;
    while bucket < FANOUT_LEN
      invariant 0 <= bucket <= FANOUT_LEN && |fanout| == bucket
      invariant 0 <= termIndex <= |terms|
      invariant forall i :: 0 <= i < termIndex ==> Top(terms[i].hash) < bucket
      invariant forall b :: 0 <= b < bucket ==> Cuts(terms, b, fanout[b])
    {
      while termIndex < |terms| && Top(terms[termIndex].hash) < bucket
        invariant 0 <= termIndex <= |terms|
        invariant forall i :: 0 <= i < termIndex ==> Top(terms[i].hash) < bucket
      {
        termIndex := termIndex + 1;
      }
      forall i | termIndex <= i < |terms| ensures Top(terms[i].hash) >= bucket {
        TopMonotone(terms[termIndex].hash, terms[i].hash);
      }
      fanout := fanout + [termIndex];
      bucket := bucket + 1;
    }
    forall b | 0 <= b < FANOUT_LEN ensures fanout[b] == CountBelow(terms, b) {
      CutCounts(terms, b, fanout[b]);
    }
  }

  lemma TopMonotone(a: nat, b: nat)
    requires a <= b
    ensures Top(a) <= Top(b)
  {
  }

  /* ---- What the compiler guarantees about the term tables. ---- */

  ghost predicate CompiledTerms(t: Tables, keys: seq<Text>, hash: Hash, seeded: Seeded) {
    && |keys| == |t.terms|
    && (forall i :: 0 <= i < |keys| ==> Readable(t.strings, t.terms[i].text, keys[i]))
    && (forall i, j :: 0 <= i < j < |keys| ==> keys[i] != keys[j])
    && (forall i :: 0 <= i < |keys| ==> t.terms[i].hash == hash(keys[i]) < U64_LIMIT)
    && HashSorted(t.terms)
    && |t.fanout| == FANOUT_LEN
    && (forall b :: 0 <= b < FANOUT_LEN ==> Cuts(t.terms, b, t.fanout[b]))
    && Perfect(t.terms, keys, seeded, t.displacements, t.slots)
  }

  /** The plain map the three lookups must agree with. */
  ghost function Entry(terms: seq<TermEntry>, keys: seq<Text>, term: Text): Option<TermEntry>
    requires |keys| == |terms|
  {
    if term in keys then
      var i :| 0 <= i < |keys| && keys[i] == term;
      Some(terms[i])
    else None
  }

  lemma EntryAbsent(terms: seq<TermEntry>, keys: seq<Text>, term: Text)
    requires |keys| == |terms| && term !in keys
    ensures Entry(terms, keys, term) == None
  {
  }

  lemma EntryAt(terms: seq<TermEntry>, keys: seq<Text>, i: nat)
    requires |keys| == |terms| && i < |keys|
    requires forall j, k :: 0 <= j < k < |keys| ==> keys[j] != keys[k]
    ensures Entry(terms, keys, keys[i]) == Some(terms[i])
  {
  }

  /** `b` opens a file compiled from `t`, whose terms are `keys`. */
  ghost predicate Compiled(b: Bundle, t: Tables, keys: seq<Text>, hash: Hash, seeded: Seeded) {
    Decodes(b, t) && CompiledTerms(t, keys, hash, seeded)
  }

  /** Fanout and terms can be read, whatever they say. */
  ghost predicate Searchable(b: Bundle) {
    && (forall i :: 0 <= i < FANOUT_LEN ==> Fanout(b, i).Ok? && Fanout(b, i).value <= b.header.termCount)
    && (forall i :: 0 < i < FANOUT_LEN ==> Fanout(b, i - 1).value <= Fanout(b, i).value)
    && TermsReadable(b)
  }

  ghost predicate TermsReadable(b: Bundle) {
    forall i :: 0 <= i < b.header.termCount ==> TermReadable(b, i)
  }

  ghost predicate TermReadable(b: Bundle, i: nat) {
    Term(b, i).Ok? && String(b, Term(b, i).value.text).Ok?
  }

  /** The index has this entry under this text. */
  ghost predicate Lists(b: Bundle, entry: TermEntry, term: Text) {
    String(b, entry.text) == Ok(term)
    && exists i :: 0 <= i < b.header.termCount && Term(b, i) == Ok(entry)
  }

  /* ---- Sorted lookup. ---- */

  /** First position in `start..end` whose hash is not below `hash`. */
  method LowerBound(b: Bundle, ghost t: Tables, start: nat, end: nat, hash: nat) returns (r: Result<nat>)
    requires start <= end
    ensures r.Ok? ==> start <= r.value <= end
    ensures (forall i :: start <= i < end ==> Term(b, i).Ok?) ==> r.Ok?
    ensures Decodes(b, t) && HashSorted(t.terms) && end <= |t.terms| ==>
              && r.Ok?
              && (forall i :: start <= i < r.value ==> t.terms[i].hash < hash)
              && (forall i :: r.value <= i < end ==> t.terms[i].hash >= hash)
  {
    hide Term;
    ghost var good := Decodes(b, t) && HashSorted(t.terms) && end <= |t.terms|;
    var low, high := start, end;
    while low < high
      invariant start <= low <= high <= end
      invariant good ==> forall i :: start <= i < low ==> t.terms[i].hash < hash
      invariant good ==> forall i :: high <= i < end ==> t.terms[i].hash >= hash
    {
      var mid := low + (high - low) / 2;
      assert good ==> Term(b, mid) == Ok(t.terms[mid]);
      var probe :- Term(b, mid);
      if probe.hash < hash {
        low := mid + 1;
      } else {
        high := mid;
      }
    }
    r := Ok(low);
  }

  /** Walks over equal hashes comparing whole keys, so a hash collision never decides. */
  method ScanCollisions(
    b: Bundle, ghost t: Tables, ghost keys: seq<Text>, term: Text, hash: nat, from: nat, end: nat)
    returns (r: Result<Option<TermEntry>>)
    requires from <= end
    ensures (forall i :: from <= i < end ==> TermReadable(b, i)) ==> r.Ok?
    ensures r.Ok? && r.value.Some? ==>
              && String(b, r.value.value.text) == Ok(term)
              && exists i :: from <= i < end && Term(b, i) == Ok(r.value.value)
    ensures && Decodes(b, t) && HashSorted(t.terms) && end <= |t.terms| == |keys|
            && (forall i :: 0 <= i < |keys| ==> Readable(t.strings, t.terms[i].text, keys[i]))
            && (forall i :: from <= i < end ==> t.terms[i].hash >= hash)
            ==> r.Ok?
                && (r.value.None? ==> forall i :: from <= i < end && t.terms[i].hash == hash ==> keys[i] != term)
                && (r.value.Some? ==> exists i :: from <= i < end && keys[i] == term && t.terms[i] == r.value.value)
  {
    hide Term, String;
    ghost var good :=
      && Decodes(b, t) && HashSorted(t.terms) && end <= |t.terms| == |keys|
      && (forall i :: 0 <= i < |keys| ==> Readable(t.strings, t.terms[i].text, keys[i]))
      && (forall i :: from <= i < end ==> t.terms[i].hash >= hash);
    var index := from;
    while index < end
      invariant from <= index <= end
      invariant good ==> forall i :: from <= i < index ==> t.terms[i].hash == hash && keys[i] != term
    {
      assert good ==> Term(b, index) == Ok(t.terms[index]);
      assert TermReadable(b, index) <==> Term(b, index).Ok? && String(b, Term(b, index).value.text).Ok?;
      var candidate :- Term(b, index);
      if candidate.hash != hash {
        return Ok(None);
      }
      assert good ==> String(b, candidate.text) == Ok(keys[index]);
      var text :- String(b, candidate.text);
      if text == term {
        return Ok(Some(candidate));
      }
      index := index + 1;
    }
    r := Ok(None);
  }

  lemma BucketReadable(b: Bundle, bucket: nat)
    requires Searchable(b) && bucket + 1 < FANOUT_LEN
    ensures Fanout(b, bucket).Ok? && Fanout(b, bucket + 1).Ok?
    ensures Fanout(b, bucket).value <= Fanout(b, bucket + 1).value <= b.header.termCount
  {
    hide Fanout, TermsReadable;
    assert Fanout(b, (bucket + 1) - 1).value <= Fanout(b, bucket + 1).value;
  }

  lemma RangeReadable(b: Bundle, start: nat, end: nat)
    requires Searchable(b) && end <= b.header.termCount
    ensures forall i :: start <= i < end ==> Term(b, i).Ok? && TermReadable(b, i)
  {
    hide Fanout, Term, String;
    forall i | start <= i < end ensures Term(b, i).Ok? && TermReadable(b, i) {
      assert TermReadable(b, i);
    }
  }

  /** `lookup_term`: fanout, binary search, collision scan. */
  method LookupTerm(b: Bundle, ghost t: Tables, ghost keys: seq<Text>, term: Text, hash: Hash, ghost seeded: Seeded)
    returns (r: Result<Option<TermEntry>>)
    requires hash(term) < U64_LIMIT
    ensures Compiled(b, t, keys, hash, seeded) ==> r == Ok(Entry(t.terms, keys, term))
    ensures Searchable(b) ==> r.Ok?
    ensures Searchable(b) && r.value.Some? ==> Lists(b, r.value.value, term)
  {
    ghost var good := Compiled(b, t, keys, hash, seeded);
    var target := hash(term);
    var bucket := Top(target);
    hide Fanout, Term, String, Perfect, Searchable, TermReadable;
    ghost var searchable := Searchable(b);
    if searchable { BucketReadable(b, bucket); }
    assert good ==> Fanout(b, bucket) == Ok(t.fanout[bucket]);
    assert good ==> Fanout(b, bucket + 1) == Ok(t.fanout[bucket + 1]);
    var start :- Fanout(b, bucket);
    var end :- Fanout(b, bucket + 1);
    if good {
      CutsOrdered(t.terms, bucket, start, end);
    }
    if !(start <= end && end <= b.header.termCount) {
      return Err("invalid fanout range");
    }
    if searchable { RangeReadable(b, start, end); }
    var low :- LowerBound(b, t, start, end, target);
    r := ScanCollisions(b, t, keys, term, target, low, end);
    if good {
      OnlyInRange(t, keys, term, hash, start, low, end);
      if r.value.Some? {
        var i :| low <= i < end && keys[i] == term && t.terms[i] == r.value.value;
        EntryAt(t.terms, keys, i);
      }
    }
  }

  lemma CutsOrdered(terms: seq<TermEntry>, bucket: nat, start: nat, end: nat)
    requires Cuts(terms, bucket, start) && Cuts(terms, bucket + 1, end)
    ensures start <= end
  {
    assert end < |terms| ==> Top(terms[end].hash) >= bucket + 1;
  }

  /** A compiled key can only sit between the bounds the search computed. */
  lemma OnlyInRange(
    t: Tables, keys: seq<Text>, term: Text, hash: Hash, start: nat, low: nat, end: nat)
    requires |keys| == |t.terms| && low <= end <= |t.terms|
    requires forall i :: 0 <= i < |keys| ==> t.terms[i].hash == hash(keys[i])
    requires Cuts(t.terms, Top(hash(term)), start) && Cuts(t.terms, Top(hash(term)) + 1, end)
    requires forall i :: start <= i < low ==> t.terms[i].hash < hash(term)
    ensures forall i :: 0 <= i < |keys| && keys[i] == term ==> low <= i < end && t.terms[i].hash == hash(term)
  {
  }

  /* ---- CHD lookup. ---- */

  /** `lookup_term_mph`. */
  function LookupTermMph(b: Bundle, term: Text, hash: Hash, seeded: Seeded): Result<Option<TermEntry>> {
    if b.header.termCount == 0 || b.header.bucketCount == 0 then Ok(None)
    else
      var displacement :- MphDisplacement(b, hash(term) % b.header.bucketCount);
      if displacement == I32_MIN then Ok(None)
      else
        var slot := SlotOf(term, displacement, b.header.termCount, seeded);
        var _ :- Ensure(0 <= slot < b.header.termCount, "MPH slot is out of range");
        var candidate :- MphTerm(b, slot);
        // The key bytes are read only when the hashes agree.
        if candidate.hash != hash(term) then Ok(None)
        else
          var text :- String(b, candidate.text);
          Ok(if text == term then Some(candidate) else None)
  }

  /** The perfect hash finds every compiled key and rejects every other text, without an error. */
  lemma MphAgrees(b: Bundle, t: Tables, keys: seq<Text>, term: Text, hash: Hash, seeded: Seeded)
    requires Compiled(b, t, keys, hash, seeded)
    ensures LookupTermMph(b, term, hash, seeded) == Ok(Entry(t.terms, keys, term))
  {
    hide MphTerm, String, MphDisplacement, HashSorted, Cuts;
    var n := |t.terms|;
    if n > 0 {
      var bucket := hash(term) % |t.displacements|;
      var d := t.displacements[bucket];
      assert MphDisplacement(b, bucket) == Ok(d);
      if term in keys {
        var i :| 0 <= i < |keys| && keys[i] == term;
        EntryAt(t.terms, keys, i);
        assert Resolves(t.terms[i], keys[i], seeded, t.displacements, t.slots);
        assert MphTerm(b, SlotOf(term, d, n, seeded)) == Ok(t.terms[i]);
        assert String(b, t.terms[i].text) == Ok(keys[i]);
      } else if d != I32_MIN {
        MphRejects(b, t, keys, term, hash, seeded);
      }
    }
  }

  /** Whatever displacement it meets, a foreign text is sent to a slot inside the table. */
  lemma SlotInTable(t: Tables, keys: seq<Text>, bucket: nat, term: Text, seeded: Seeded)
    requires |keys| == |t.terms| > 0 && Perfect(t.terms, keys, seeded, t.displacements, t.slots)
    requires bucket < |t.displacements| && t.displacements[bucket] != I32_MIN
    ensures 0 <= SlotOf(term, t.displacements[bucket], |t.terms|, seeded) < |t.terms|
  {
    if t.displacements[bucket] < 0 {
      var i :| 0 <= i < |t.terms| && BucketOf(t.terms[i], |t.displacements|) == bucket;
      assert Resolves(t.terms[i], keys[i], seeded, t.displacements, t.slots);
    }
  }

  /** Every slot holds one of the terms. */
  lemma SlotHolds(t: Tables, keys: seq<Text>, slot: nat, seeded: Seeded) returns (i: nat)
    requires |keys| == |t.terms| > 0 && Perfect(t.terms, keys, seeded, t.displacements, t.slots)
    requires slot < |t.slots|
    ensures i < |t.terms| && t.slots[slot] == t.terms[i]
  {
    hide SlotOf, Resolves;
    assert Occupied(slot, t.terms, keys, seeded, t.displacements, t.slots);
    i :| 0 <= i < |t.terms| && t.slots[slot] == t.terms[i];
  }

  /** A foreign text may land on an occupied slot, whose key then differs. */
  lemma MphRejects(b: Bundle, t: Tables, keys: seq<Text>, term: Text, hash: Hash, seeded: Seeded)
    requires Compiled(b, t, keys, hash, seeded) && |t.terms| > 0 && term !in keys
    requires t.displacements[hash(term) % |t.displacements|] != I32_MIN
    ensures LookupTermMph(b, term, hash, seeded) == Ok(None)
  {
    hide MphTerm, String, MphDisplacement, HashSorted, Cuts, Resolves;
    var bucket := hash(term) % |t.displacements|;
    assert MphDisplacement(b, bucket) == Ok(t.displacements[bucket]);
    var slot := SlotOf(term, t.displacements[bucket], |t.terms|, seeded);
    SlotInTable(t, keys, bucket, term, seeded);
    var i := SlotHolds(t, keys, slot, seeded);
    hide SlotOf, Perfect;
    assert MphTerm(b, slot) == Ok(t.terms[i]);
    assert String(b, t.terms[i].text) == Ok(keys[i]);
  }

  /* ---- Preloaded map. ---- */

  /** Two entries have the same text. */
  ghost predicate ListsTwice(b: Bundle) {
    exists i, j :: 0 <= i < j < b.header.termCount && SameText(b, i, j)
  }

  ghost predicate SameText(b: Bundle, i: nat, j: nat) {
    Term(b, i).Ok? && Term(b, j).Ok? && String(b, Term(b, i).value.text) == String(b, Term(b, j).value.text)
  }

  /** `entries` is the plain map of the first `n` terms. */
  ghost predicate Loaded(b: Bundle, entries: map<Text, TermEntry>, n: nat) {
    && (forall i, j :: 0 <= i < j < n ==> !SameText(b, i, j))
    && (forall i :: 0 <= i < n ==>
          TermReadable(b, i) && String(b, Term(b, i).value.text).value in entries
          && entries[String(b, Term(b, i).value.text).value] == Term(b, i).value)
    && (forall term :: term in entries ==>
          exists i :: 0 <= i < n && Term(b, i) == Ok(entries[term]) && String(b, entries[term].text) == Ok(term))
  }

  lemma LoadOne(b: Bundle, entries: map<Text, TermEntry>, n: nat, entry: TermEntry, term: Text)
    requires Loaded(b, entries, n) && Term(b, n) == Ok(entry) && String(b, entry.text) == Ok(term)
    ensures if term in entries then exists i :: 0 <= i < n && SameText(b, i, n)
            else Loaded(b, entries[term := entry], n + 1)
  {
    hide Term, String;
    if term in entries {
      var i :| 0 <= i < n && Term(b, i) == Ok(entries[term]) && String(b, entries[term].text) == Ok(term);
      assert SameText(b, i, n);
    } else {
      var after := entries[term := entry];
      forall i | 0 <= i < n ensures !SameText(b, i, n) && String(b, Term(b, i).value.text).value in after {
        assert String(b, Term(b, i).value.text).value in entries;
      }
    }
  }

  /** `preload_hashmap`. */
  method PreloadHashmap(b: Bundle, ghost t: Tables, ghost keys: seq<Text>, ghost hash: Hash, ghost seeded: Seeded)
    returns (r: Result<map<Text, TermEntry>>)
    ensures Compiled(b, t, keys, hash, seeded) ==>
              r.Ok? && forall term: Text ::
                (if term in r.value then Some(r.value[term]) else None) == Entry(t.terms, keys, term)
    ensures TermsReadable(b) ==> (r.Err? <==> ListsTwice(b))
    ensures r.Ok? ==> forall term :: term in r.value ==> Lists(b, r.value[term], term)
  {
    ghost var readable, good := TermsReadable(b), Compiled(b, t, keys, hash, seeded);
    if good {
      CompiledOnce(b, t, keys, hash, seeded);
    }
    hide Compiled, Term, String, Loaded, Entry;
    var entries: map<Text, TermEntry> := map[];
    assert Loaded(b, entries, 0) by { NothingLoaded(b); }
    var index := 0;
    while index < b.header.termCount
      invariant 0 <= index <= b.header.termCount
      invariant Loaded(b, entries, index)
    {
      assert readable ==> TermReadable(b, index);
      var entry :- Term(b, index);
      var term :- String(b, entry.text);
      LoadOne(b, entries, index, entry, term);
      if term in entries {
        ghost var i :| 0 <= i < index && SameText(b, i, index);
        return Err("duplicate term in compiled index");
      }
      entries := entries[term := entry];
      index := index + 1;
    }
    AllLoaded(b, entries);
    if good {
      LoadedPlain(b, t, keys, hash, seeded, entries);
    }
    r := Ok(entries);
  }

  lemma NothingLoaded(b: Bundle)
    ensures Loaded(b, map[], 0)
  {
  }

  lemma AllLoaded(b: Bundle, entries: map<Text, TermEntry>)
    requires Loaded(b, entries, b.header.termCount)
    ensures !ListsTwice(b) && forall term :: term in entries ==> Lists(b, entries[term], term)
  {
    hide Term, String;
  }

  /** A compiled index has every text once. */
  lemma CompiledOnce(b: Bundle, t: Tables, keys: seq<Text>, hash: Hash, seeded: Seeded)
    requires Compiled(b, t, keys, hash, seeded)
    ensures TermsReadable(b) && !ListsTwice(b)
  {
    hide Term, String, Perfect, Cuts, HashSorted;
    forall i | 0 <= i < b.header.termCount
      ensures Term(b, i) == Ok(t.terms[i]) && String(b, t.terms[i].text) == Ok(keys[i])
    {
      assert Readable(t.strings, t.terms[i].text, keys[i]);
    }
  }

  lemma LoadedPlain(
    b: Bundle, t: Tables, keys: seq<Text>, hash: Hash, seeded: Seeded, entries: map<Text, TermEntry>)
    requires Compiled(b, t, keys, hash, seeded) && Loaded(b, entries, b.header.termCount)
    ensures forall term: Text ::
              (if term in entries then Some(entries[term]) else None) == Entry(t.terms, keys, term)
  {
    hide Term, String, Perfect, Cuts, HashSorted, Entry;
    forall i | 0 <= i < |keys| ensures keys[i] in entries && Entry(t.terms, keys, keys[i]) == Some(entries[keys[i]]) {
      assert Term(b, i) == Ok(t.terms[i]) && String(b, t.terms[i].text) == Ok(keys[i]);
      assert TermReadable(b, i);
      EntryAt(t.terms, keys, i);
    }
    forall term | term in entries ensures term in keys {
      var i :| 0 <= i < b.header.termCount && Term(b, i) == Ok(entries[term])
        && String(b, entries[term].text) == Ok(term);
      assert String(b, t.terms[i].text) == Ok(keys[i]);
    }
    forall term | term !in keys ensures Entry(t.terms, keys, term) == None {
      EntryAbsent(t.terms, keys, term);
    }
  }

  /* ---- Choosing a lookup. ---- */

  datatype Backend = SortedHash | PerfectHash | Preload(entries: map<Text, TermEntry>)

  /** `QueryEngine::new`. */
  method NewBackend(
    mode: nat, b: Bundle, ghost t: Tables, ghost keys: seq<Text>, ghost hash: Hash, ghost seeded: Seeded)
    returns (r: Result<Backend>)
    ensures Compiled(b, t, keys, hash, seeded) ==> r.Ok? && Serves(r.value, t, keys)
    ensures Searchable(b) ==> (r.Err? <==> mode > 1 && ListsTwice(b))
    ensures Searchable(b) && r.Ok? ==> BuiltFrom(b, r.value)
  {
    if mode == 0 {
      return Ok(SortedHash);
    } else if mode == 1 {
      return Ok(PerfectHash);
    }
    var entries :- PreloadHashmap(b, t, keys, hash, seeded);
    r := Ok(Preload(entries));
  }

  ghost predicate Serves(backend: Backend, t: Tables, keys: seq<Text>)
    requires |keys| == |t.terms|
  {
    backend.Preload? ==> forall term: Text ::
      (if term in backend.entries then Some(backend.entries[term]) else None) == Entry(t.terms, keys, term)
  }

  /** A preloaded map holds entries of the index. */
  ghost predicate BuiltFrom(b: Bundle, backend: Backend) {
    backend.Preload? ==> forall term :: term in backend.entries ==> Lists(b, backend.entries[term], term)
  }

  /** The perfect hash fails where a text meets a slot outside the table or an unreadable entry. */
  predicate LookupFails(backend: Backend, b: Bundle, term: Text, hash: Hash, seeded: Seeded) {
    backend.PerfectHash? && LookupTermMph(b, term, hash, seeded).Err?
  }

  /** `term_entry`: whichever lookup the engine was built with, the answer is the plain map's. */
  method TermEntryOf(
    backend: Backend, b: Bundle, ghost t: Tables, ghost keys: seq<Text>,
    term: Text, hash: Hash, seeded: Seeded)
    returns (r: Result<Option<TermEntry>>)
    requires hash(term) < U64_LIMIT
    ensures Compiled(b, t, keys, hash, seeded) && Serves(backend, t, keys)
            ==> r == Ok(Entry(t.terms, keys, term))
    ensures Searchable(b) ==> (r.Err? <==> LookupFails(backend, b, term, hash, seeded))
    ensures backend.PerfectHash? ==> r == LookupTermMph(b, term, hash, seeded)
    ensures Searchable(b) && BuiltFrom(b, backend) && !backend.PerfectHash? && r.value.Some?
            ==> Lists(b, r.value.value, term)
  {
    match backend
    case SortedHash => r := LookupTerm(b, t, keys, term, hash, seeded);
    case PerfectHash =>
      r := LookupTermMph(b, term, hash, seeded);
      if Compiled(b, t, keys, hash, seeded) {
        MphAgrees(b, t, keys, term, hash, seeded);
      }
    case Preload(entries) =>
      r := Ok(if term in entries then Some(entries[term]) else None);
  }
}
