/** The format itself, byte for byte: sections 5.2 to 5.5 of the Devicetree Specification v0.4, as far
    as the rewriter reads it.
 */
module DtbLayout {
  import opened Wrappers
  import opened DtbTokens
  import opened DtbFormat
  import opened DtbPatch

  /** Four bytes, the most significant first. */
  function Big(b: Blob, at: nat): int
    requires at + 4 <= |b|
  {
    var b3: int, b2: int, b1: int, b0: int := b[at], b[at + 1], b[at + 2], b[at + 3];
    b3 * 16777216 + b2 * 65536 + b1 * 256 + b0
  }

  lemma BigIs(b: Blob, at: nat)
    requires at + 4 <= |b|
    ensures U32(b, at) == Big(b, at)
  {
  }

  /** `size` is where the next multiple of four after `end` bytes lies. */
  predicate PaddedTo(end: nat, size: nat) {
    end <= size < end + 4 && size % 4 == 0
  }

  lemma PaddedIff(before: nat, n: nat, size: nat)
    requires before % 4 == 0
    ensures before + Padded(n) == size <==> PaddedTo(before + n, size)
  {
  }

  /** A NUL-terminated string at an offset. */
  predicate StringAt(b: Blob, at: nat, name: Blob) {
    && 0 !in name && at + |name| < |b| && b[at..at + |name|] == name && b[at + |name|] == 0
  }

  lemma ZeroIff(b: Blob, at: nat, name: Blob)
    ensures ZeroFrom(b, at).Some? && b[at..ZeroFrom(b, at).value] == name <==> StringAt(b, at, name)
  {
    var end := ZeroFrom(b, at);
    if end.Some? && b[at..end.value] == name {
      assert forall j :: 0 <= j < |name| ==> name[j] == b[at + j];
    }
    if StringAt(b, at, name) {
      assert forall j :: at <= j < at + |name| ==> b[j] == b[at..at + |name|][j - at] == name[j - at];
      assert b[at + |name|] == 0 && forall j :: at <= j < at + |name| ==> b[j] != 0;
    }
  }

  /** The bytes of a token, and its size with its padding. */
  predicate Laid(s: Blob, strings: Blob, token: Token, size: nat) {
    && 4 <= |s| && size <= |s|
    && match token
       case Begin(name) =>
         s[..4] == [0, 0, 0, 1] && StringAt(s, 4, name) && Ascii(name) && PaddedTo(4 + |name| + 1, size)
       case End => s[..4] == [0, 0, 0, 2] && size == 4
       case Prop(name, value) =>
         && s[..4] == [0, 0, 0, 3] && 12 <= |s| && Big(s, 4) == |value| && PaddedTo(12 + |value|, size)
         && 12 + |value| <= |s| && s[12..12 + |value|] == value
         && Big(s, 8) >= 0 && StringAt(strings, Big(s, 8), name) && Ascii(name)
       case Nop => s[..4] == [0, 0, 0, 4] && size == 4
       case Finish => s[..4] == [0, 0, 0, 9] && size == 4
  }

  lemma WordIs(s: Blob, n: nat)
    requires 4 <= |s| && n < 256
    ensures U32(s, 0) == n <==> s[..4] == [0, 0, 0, n]
  {
    BigIs(s, 0);
    assert s[..4] == [s[0], s[1], s[2], s[3]];
  }

  /** The reader's token is the one that is laid out there. */
  lemma HeadIff(s: Blob, strings: Blob, token: Token, size: nat)
    ensures DecodeHead(s, strings) == Some(Head(token, size)) <==> Laid(s, strings, token, size)
  {
    if 4 <= |s| {
      WordIs(s, 1);
      WordIs(s, 2);
      WordIs(s, 3);
      WordIs(s, 4);
      WordIs(s, 9);
      match token
      case Begin(name) => BeginIff(s, name, size);
      case Prop(name, value) => PropIff(s, strings, name, value, size);
      case _ =>
    }
  }

  lemma BeginIff(s: Blob, name: Blob, size: nat)
    requires 4 <= |s|
    ensures DecodeBegin(s) == Some(Head(Begin(name), size))
       <==> size <= |s| && StringAt(s, 4, name) && Ascii(name) && PaddedTo(4 + |name| + 1, size)
  {
    ZeroIff(s, 4, name);
    var end := ZeroFrom(s, 4);
    if end.Some? {
      PaddedIff(0, end.value + 1, size);
      assert s[4..end.value] == name ==> end.value == 4 + |name|;
    }
  }

  lemma PropIff(s: Blob, strings: Blob, name: Blob, value: Blob, size: nat)
    requires 4 <= |s|
    ensures DecodeProp(s, strings) == Some(Head(Prop(name, value), size))
       <==> && 12 <= |s| && size <= |s| && Big(s, 4) == |value| && PaddedTo(12 + |value|, size)
            && 12 + |value| <= |s| && s[12..12 + |value|] == value
            && Big(s, 8) >= 0 && StringAt(strings, Big(s, 8), name) && Ascii(name)
  {
    if 12 <= |s| {
      BigIs(s, 4);
      BigIs(s, 8);
      ZeroIff(strings, U32(s, 8), name);
      PaddedIff(12, U32(s, 4), size);
    }
  }

  /** The header: ten words, in the order of the specification. */
  lemma HeaderIs(data: Blob)
    requires 40 <= |data|
    ensures Field(data, 0) == Big(data, 0) && Field(data, 1) == Big(data, 4) && Field(data, 2) == Big(data, 8)
    ensures Field(data, 3) == Big(data, 12) && Field(data, 4) == Big(data, 16) && Field(data, 5) == Big(data, 20)
    ensures Field(data, 6) == Big(data, 24) && Field(data, 7) == Big(data, 28)
    ensures Field(data, 8) == Big(data, 32) && Field(data, 9) == Big(data, 36)
    ensures ValidHeader(data) <==>
              && data[..4] == [0xd0, 0x0d, 0xfe, 0xed] && data[20..24] == [0, 0, 0, 17] && Big(data, 4) <= |data|
              && 40 <= Big(data, 16) <= Big(data, 8) <= Big(data, 12) <= Big(data, 4)
  {
    MagicIs(data);
    VersionIs(data);
  }

  lemma MagicIs(data: Blob)
    requires 4 <= |data|
    ensures U32(data, 0) == 0xd00dfeed <==> data[..4] == [0xd0, 0x0d, 0xfe, 0xed]
  {
    BigIs(data, 0);
    assert data[..4] == [data[0], data[1], data[2], data[3]];
  }

  lemma VersionIs(data: Blob)
    requires 24 <= |data|
    ensures U32(data, 20) == 17 <==> data[20..24] == [0, 0, 0, 17]
  {
    BigIs(data, 20);
    assert data[20..24] == [data[20], data[21], data[22], data[23]];
  }
}
