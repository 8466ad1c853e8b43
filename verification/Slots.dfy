/** Names of the per-source directories inside the quarantine. */
module Slots {
  import opened Wrappers
  import opened Text
  import opened Compile

  function Zeros(n: nat): (z: Text)
    ensures |z| == n && forall k :: 0 <= k < n ==> z[k] == 48
  {
    seq(n, _ => 48)
  }

  /** At least four decimal digits. */
  function Padded(n: nat): Text {
    Zeros(if |Decimal(n)| < 4 then 4 - |Decimal(n)| else 0) + Decimal(n)
  }

  /** "source-" + index + "-" + eight hexadecimal digits of the source's hash. */
  function SlotName(index: nat, hash: Text): Text {
    [115, 111, 117, 114, 99, 101, 45] + Padded(index) + [45] + hash
  }

  /** The number a run of digits stands for. */
  function Number(digits: Text): int {
    if digits == [] then 0 else 10 * Number(digits[..|digits| - 1]) + digits[|digits| - 1] - 48
  }

  lemma {:induction false} NumberOfDecimal(n: nat)
    ensures Number(Decimal(n)) == n
  {
    var d := Decimal(n);
    if n >= 10 {
      NumberOfDecimal(n / 10);
      assert d[..|d| - 1] == Decimal(n / 10);
    } else {
      assert d[..|d| - 1] == [];
    }
  }

  lemma {:induction false} NumberOfPadded(zeros: nat, digits: Text)
    ensures Number(Zeros(zeros) + digits) == Number(digits)
  {
    if digits == [] {
      assert Zeros(zeros) + digits == Zeros(zeros);
      NumberOfZeros(zeros);
    } else {
      var all := Zeros(zeros) + digits;
      assert all[..|all| - 1] == Zeros(zeros) + digits[..|digits| - 1];
      NumberOfPadded(zeros, digits[..|digits| - 1]);
    }
  }

  lemma {:induction false} NumberOfZeros(n: nat)
    ensures Number(Zeros(n)) == 0
  {
    if n > 0 {
      assert Zeros(n)[..n - 1] == Zeros(n - 1);
      NumberOfZeros(n - 1);
    }
  }

  /** Different indexes never share a slot, whatever the hashes are. */
  lemma SlotNamesDiffer(i: nat, j: nat, h: Text, k: Text)
    requires SlotName(i, h) == SlotName(j, k) && |h| == |k|
    ensures i == j
  {
    var a, b := SlotName(i, h), SlotName(j, k);
    assert a[7..|a| - |h| - 1] == Padded(i);
    assert b[7..|b| - |k| - 1] == Padded(j);
    NumberOfPadded(|Padded(i)| - |Decimal(i)|, Decimal(i));
    NumberOfPadded(|Padded(j)| - |Decimal(j)|, Decimal(j));
    NumberOfDecimal(i);
    NumberOfDecimal(j);
  }

  /** `_source_slots` over the sorted source ids. */
  function SourceSlots(ids: seq<Text>, hash: Text -> Text): map<Text, Text> {
    if ids == [] then map[]
    else
      SourceSlots(ids[..|ids| - 1], hash)[ids[|ids| - 1] := SlotName(|ids| - 1, hash(ids[|ids| - 1]))]
  }

  ghost predicate Injective(slots: map<Text, Text>) {
    forall a, b :: a in slots && b in slots && slots[a] == slots[b] ==> a == b
  }

  lemma {:induction false} SlotHasIndex(ids: seq<Text>, hash: Text -> Text, id: Text) returns (index: nat)
    requires id in SourceSlots(ids, hash)
    ensures index < |ids| && ids[index] == id && SourceSlots(ids, hash)[id] == SlotName(index, hash(id))
  {
    if ids[|ids| - 1] == id {
      index := |ids| - 1;
    } else {
      index := SlotHasIndex(ids[..|ids| - 1], hash, id);
    }
  }

  lemma SourceSlotsInjective(ids: seq<Text>, hash: Text -> Text)
    requires forall text :: |hash(text)| == 8
    ensures Injective(SourceSlots(ids, hash))
  {
    var slots := SourceSlots(ids, hash);
    forall a, b | a in slots && b in slots && slots[a] == slots[b] ensures a == b {
      var i := SlotHasIndex(ids, hash, a);
      var j := SlotHasIndex(ids, hash, b);
      SlotNamesDiffer(i, j, hash(a), hash(b));
    }
  }

  lemma {:induction false} EverySourceHasSlot(ids: seq<Text>, hash: Text -> Text, id: Text)
    ensures id in SourceSlots(ids, hash) <==> id in ids
  {
    if ids != [] {
      assert ids == ids[..|ids| - 1] + [ids[|ids| - 1]];
      EverySourceHasSlot(ids[..|ids| - 1], hash, id);
    }
  }
}
