/** The interned string table of the compiler. */
module Strings {
  import opened Wrappers
  import opened Text
  import opened LittleEndian

  /** Offset that stands for "no string" in a record. */
  const NONE_REF := 0xFFFF_FFFF

  datatype StringRef = StringRef(offset: nat, len: nat)

  /** The bytes `reference` points at are `value`. */
  ghost predicate Holds(bytes: seq<byte>, reference: StringRef, value: Text) {
    && reference.offset + reference.len <= |bytes|
    && bytes[reference.offset..reference.offset + reference.len] == value
  }

  /** `value` can be read back through `reference`; no text may use the null offset. */
  ghost predicate Readable(bytes: seq<byte>, reference: StringRef, value: Text) {
    Holds(bytes, reference, value) && reference.offset != NONE_REF
  }

  ghost predicate OptionReadable(bytes: seq<byte>, reference: StringRef, value: Option<Text>) {
    match value
    case None => reference.offset == NONE_REF
    case Some(text) => Readable(bytes, reference, text)
  }

  predicate FitsRef(reference: StringRef) {
    reference.offset < U32_LIMIT && reference.len < U32_LIMIT
  }

  /** References stay good while the table only grows. */
  lemma HoldsMonotone(bytes: seq<byte>, more: seq<byte>, reference: StringRef, value: Text)
    requires bytes <= more && Holds(bytes, reference, value)
    ensures Holds(more, reference, value)
  {
    assert more[..|bytes|] == bytes;
    assert more[reference.offset..reference.offset + reference.len]
        == bytes[reference.offset..reference.offset + reference.len];
  }

  lemma AppendedHolds(bytes: seq<byte>, value: Text)
    ensures Holds(bytes + value, StringRef(|bytes|, |value|), value)
  {
  }

  /** `string_bytes`. */
  function StringBytes(bytes: seq<byte>, reference: StringRef): (r: Result<Text>)
    ensures forall value :: Holds(bytes, reference, value) <==> r == Ok(value)
  {
    if reference.offset + reference.len <= |bytes|
    then Ok(bytes[reference.offset..reference.offset + reference.len])
    else Err("string reference outside compiler table")
  }

  class StringTable {
    var bytes: seq<byte>
    var refs: map<Text, StringRef>

    ghost predicate Valid()
      reads this
    {
      && |bytes| == TextBytes(refs.Keys)
      && (forall value :: value in refs ==>
            Holds(bytes, refs[value], value) && FitsRef(refs[value]) && refs[value].len == |value|)
    }

    lemma SizeBound(texts: set<Text>)
      requires Valid() && refs.Keys <= texts
      ensures |bytes| <= TextBytes(texts)
    {
      TextBytesSubset(refs.Keys, texts);
    }

    /** A table of texts that together stay below 4 GiB never refuses one of them. */
    lemma HasRoom(texts: set<Text>, value: Text)
      requires Valid() && refs.Keys <= texts && value in texts
      ensures TextBytes(texts) < U32_LIMIT ==> value in refs || (|bytes| < U32_LIMIT && |value| < U32_LIMIT)
    {
      TextBytesSubset(refs.Keys, texts);
      TextBytesSubset({value}, texts);
      assert TextBytes({value}) == |value| by {
        TextBytesAdd({}, value);
        assert {} + {value} == {value};
      }
    }

    constructor ()
      ensures Valid() && bytes == [] && refs == map[]
    {
      bytes, refs := [], map[];
    }

    /** Equal texts share one reference; a new text is appended. Fails exactly past 4 GiB. */
    method Intern(value: Text) returns (r: Result<StringRef>)
      requires Valid()
      modifies this
      ensures Valid() && old(bytes) <= bytes
      ensures forall other :: other in old(refs) ==> other in refs && refs[other] == old(refs)[other]
      ensures r.Ok? <==> value in old(refs) || (|old(bytes)| < U32_LIMIT && |value| < U32_LIMIT)
      ensures r.Ok? ==> value in refs && refs[value] == r.value && refs.Keys == old(refs.Keys) + {value}
      ensures r.Ok? ==> Holds(bytes, r.value, value) && FitsRef(r.value)
      ensures value in old(refs) ==> bytes == old(bytes) && refs == old(refs)
      ensures r.Ok? && value !in old(refs)
              ==> bytes == old(bytes) + value && r.value == StringRef(|old(bytes)|, |value|)
      ensures r.Err? ==> bytes == old(bytes) && refs == old(refs)
    {
      if value in refs {
        return Ok(refs[value]);
      }
      if |bytes| >= U32_LIMIT {
        return Err("string table exceeds 4 GiB");
      }
      if |value| >= U32_LIMIT {
        return Err("one string exceeds 4 GiB");
      }
      var reference := StringRef(|bytes|, |value|);
      AppendedHolds(bytes, value);
      TextBytesAdd(refs.Keys, value);
      hide Holds, TextBytes;
      forall other | other in refs ensures Holds(bytes + value, refs[other], other) {
        HoldsMonotone(bytes, bytes + value, refs[other], other);
      }
      bytes := bytes + value;
      refs := refs[value := reference];
      assert refs.Keys == old(refs.Keys) + {value};
      return Ok(reference);
    }

    method Optional(value: Option<Text>) returns (r: Result<StringRef>)
      requires Valid()
      modifies this
      ensures Valid() && old(bytes) <= bytes
      ensures forall other :: other in old(refs) ==> other in refs && refs[other] == old(refs)[other]
      ensures value.None? ==> r == Ok(StringRef(NONE_REF, 0)) && bytes == old(bytes) && refs == old(refs)
      ensures value.Some? && r.Ok? ==> Holds(bytes, r.value, value.value)
      ensures r.Ok? ==> FitsRef(r.value)
      ensures r.Ok? <==>
                (value.None? || value.value in old(refs) || (|old(bytes)| < U32_LIMIT && |value.value| < U32_LIMIT))
      ensures refs.Keys == old(refs.Keys) || (value.Some? && refs.Keys == old(refs.Keys) + {value.value})
      // A present text is mistaken for NULL exactly when its offset is the null offset.
      ensures r.Ok? ==>
        (OptionReadable(bytes, r.value, value) <==> value.None? || r.value.offset != NONE_REF)
      ensures value.Some? && r.Ok? && value.value !in old(refs)
              ==> (OptionReadable(bytes, r.value, value) <==> |old(bytes)| != NONE_REF)
    {
      match value
      case Some(text) => r := Intern(text);
      case None => r := Ok(StringRef(NONE_REF, 0));
    }
  }

  /** A table that stays below `NONE_REF` bytes never hands out the null offset. */
  lemma SmallTableReadable(bytes: seq<byte>, reference: StringRef, value: Text)
    requires |bytes| < NONE_REF && Holds(bytes, reference, value)
    ensures Readable(bytes, reference, value)
  {
  }

  /** The corner: one more text interned into a table of exactly `NONE_REF` bytes reads back as NULL. */
  lemma FullTableReadsAsNull(bytes: seq<byte>, value: Text)
    requires |bytes| == NONE_REF
    ensures Holds(bytes + value, StringRef(|bytes|, |value|), value)
    ensures !OptionReadable(bytes + value, StringRef(|bytes|, |value|), Some(value))
    ensures OptionReadable(bytes + value, StringRef(|bytes|, |value|), None)
  {
    assert (bytes + value)[|bytes|..|bytes| + |value|] == value;
  }
}
