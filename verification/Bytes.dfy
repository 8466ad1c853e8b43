/** Fixed-width little-endian fields and the tables built from them. */
module LittleEndian {
  import opened Wrappers
  import opened Text

  const U16_LIMIT := 0x1_0000
  const U32_LIMIT := 0x1_0000_0000
  const U64_LIMIT := 0x1_0000_0000_0000_0000
  const I32_MIN := -0x8000_0000
  const I32_MAX := 0x7FFF_FFFF

  function Pow256(width: nat): (p: nat)
    ensures p > 0
  {
    if width == 0 then 1 else 256 * Pow256(width - 1)
  }

  lemma Widths()
    ensures Pow256(1) == 256
    ensures Pow256(2) == U16_LIMIT
    ensures Pow256(4) == U32_LIMIT
    ensures Pow256(8) == U64_LIMIT
  {
    assert Pow256(3) == 0x100_0000;
    assert Pow256(4) == U32_LIMIT;
    assert Pow256(5) == 0x100_0000_0000;
    assert Pow256(6) == 0x1_0000_0000_0000;
    assert Pow256(7) == 0x100_0000_0000_0000;
  }

  /** `to_le_bytes` of an unsigned integer of `width` bytes; higher bits are dropped, as by `as`. */
  function Encode(value: nat, width: nat): (bytes: seq<byte>)
    ensures |bytes| == width
  {
    if width == 0 then [] else [value % 256] + Encode(value / 256, width - 1)
  }

  function Decode(bytes: seq<byte>): nat {
    if bytes == [] then 0 else bytes[0] + 256 * Decode(bytes[1..])
  }

  lemma {:induction false} DecodeEncode(value: nat, width: nat)
    requires value < Pow256(width)
    ensures Decode(Encode(value, width)) == value
  {
    if width > 0 {
      DecodeEncode(value / 256, width - 1);
      assert Encode(value, width)[1..] == Encode(value / 256, width - 1);
    }
  }

  /** Two's complement, as `i32::to_le_bytes`. */
  function EncodeI32(value: int): (bytes: seq<byte>)
    requires I32_MIN <= value <= I32_MAX
    ensures |bytes| == 4
  {
    Encode(if value < 0 then value + U32_LIMIT else value, 4)
  }

  function DecodeI32(bytes: seq<byte>): int {
    var raw := Decode(bytes);
    if raw > I32_MAX then raw - U32_LIMIT else raw
  }

  lemma DecodeEncodeI32(value: int)
    requires I32_MIN <= value <= I32_MAX
    ensures DecodeI32(EncodeI32(value)) == value
  {
    Widths();
    DecodeEncode(if value < 0 then value + U32_LIMIT else value, 4);
  }

  /** `le_u16`, `le_u32` and `le_u64`. */
  function Read(bytes: seq<byte>, offset: nat, width: nat): Result<nat> {
    if offset + width <= |bytes| then Ok(Decode(bytes[offset..offset + width]))
    else Err("truncated integer")
  }

  /** A field written at `offset` is read back, whatever surrounds it. */
  lemma ReadField(bytes: seq<byte>, offset: nat, value: nat, width: nat)
    requires offset + width <= |bytes| && value < Pow256(width)
    requires bytes[offset..offset + width] == Encode(value, width)
    ensures Read(bytes, offset, width) == Ok(value)
  {
    DecodeEncode(value, width);
  }

  function Flatten(items: seq<seq<byte>>): seq<byte> {
    if items == [] then [] else items[0] + Flatten(items[1..])
  }

  ghost predicate AllWidth(items: seq<seq<byte>>, width: nat) {
    forall i :: 0 <= i < |items| ==> |items[i]| == width
  }

  lemma {:induction false} FlattenLength(items: seq<seq<byte>>, width: nat)
    requires AllWidth(items, width)
    ensures |Flatten(items)| == |items| * width
  {
    if items != [] { FlattenLength(items[1..], width); }
  }

  lemma {:induction false} FlattenConcat(left: seq<seq<byte>>, right: seq<seq<byte>>)
    ensures Flatten(left + right) == Flatten(left) + Flatten(right)
  {
    if left == [] {
      assert left + right == right;
    } else {
      assert (left + right)[0] == left[0] && (left + right)[1..] == left[1..] + right;
      FlattenCons(left);
      FlattenCons(left + right);
      hide Flatten;
      FlattenConcat(left[1..], right);
      Associate(left[0], Flatten(left[1..]), Flatten(right));
    }
  }

  lemma FlattenCons(items: seq<seq<byte>>)
    requires items != []
    ensures Flatten(items) == items[0] + Flatten(items[1..])
  {
  }

  lemma Associate(a: seq<byte>, b: seq<byte>, c: seq<byte>)
    ensures (a + b) + c == a + (b + c)
  {
  }

  lemma FlattenAppend(items: seq<seq<byte>>, item: seq<byte>)
    ensures Flatten(items + [item]) == Flatten(items) + item
  {
    FlattenConcat(items, [item]);
    assert Flatten([item]) == item + Flatten([]);
  }

  lemma FlattenSlice(items: seq<seq<byte>>, width: nat, i: nat)
    requires AllWidth(items, width) && i < |items|
    ensures 0 <= i * width && i * width + width <= |Flatten(items)|
    ensures Flatten(items)[i * width..i * width + width] == items[i]
  {
    FlattenConcat(items[..i], items[i..]);
    assert items == items[..i] + items[i..];
    assert items[i..][0] == items[i];
    FlattenLength(items[..i], width);
    assert Flatten(items) == Flatten(items[..i]) + (items[i] + Flatten(items[i..][1..]));
  }

  /** Item `i` of a table of equal-width items that starts at `start` inside `bytes`. */
  lemma TableSlice(bytes: seq<byte>, start: nat, items: seq<seq<byte>>, width: nat, i: nat)
    requires AllWidth(items, width) && i < |items|
    requires start + |Flatten(items)| <= |bytes|
    requires bytes[start..start + |Flatten(items)|] == Flatten(items)
    ensures 0 <= i * width && start + i * width + width <= |bytes|
    ensures bytes[start + i * width..start + i * width + width] == items[i]
  {
    FlattenSlice(items, width, i);
    SubSlice(bytes, start, |Flatten(items)|, i * width, width);
  }

  lemma SubSlice(bytes: seq<byte>, start: nat, length: nat, at: nat, width: nat)
    requires start + length <= |bytes| && at + width <= length
    ensures bytes[start..start + length][at..at + width] == bytes[start + at..start + at + width]
  {
    var table := bytes[start..start + length];
    var left, right := table[at..at + width], bytes[start + at..start + at + width];
    forall k | 0 <= k < width ensures left[k] == right[k] {
      assert left[k] == table[at + k] == bytes[start + at + k];
    }
  }
}
