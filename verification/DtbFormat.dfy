/** The flattened devicetree structure block as the rewriter reads it
    (tools/emulator_dtb.py; sections 5.2 to 5.5 of the Devicetree Specification v0.4).

    The reader is the code's own token walk: a suffix of the block decodes to one token and
    its size, and padding carries no meaning.
 */
module DtbFormat {
  import opened Wrappers
  import opened DtbTokens

  const WORD: int := 0x1_0000_0000

  function U32(b: Blob, at: nat): (n: nat)
    requires at + 4 <= |b|
    ensures n < WORD
  {
    FromBytes(b[at], b[at + 1], b[at + 2], b[at + 3])
  }

  function FromBytes(b3: int, b2: int, b1: int, b0: int): int {
    ((b3 * 256 + b2) * 256 + b1) * 256 + b0
  }

  /** The big-endian word. */
  function Pack(n: nat): (b: Blob)
    requires n < WORD
    ensures |b| == 4
  {
    var n1, n2, n3 := n / 256, n / 256 / 256, n / 256 / 256 / 256;
    [n3, n2 % 256, n1 % 256, n % 256]
  }

  lemma PackReads(n: nat)
    requires n < WORD
    ensures U32(Pack(n), 0) == n
  {
    var n1 := n / 256;
    var n2 := n1 / 256;
    var n3 := n2 / 256;
    assert n2 == n3 * 256 + n2 % 256;
    assert n1 == n2 * 256 + n1 % 256;
    assert n == n1 * 256 + n % 256;
  }

  /** The next multiple of four. */
  function Padded(n: nat): (m: nat)
    ensures m % 4 == 0 && n <= m < n + 4
  {
    (n + 3) / 4 * 4
  }

  function Zeros(n: nat): (b: Blob)
    ensures |b| == n
  {
    seq(n, _ => 0)
  }

  /** The position of the first zero byte from `at` on. */
  function ZeroFrom(b: Blob, at: nat): (i: Option<nat>)
    ensures i.Some? ==> at <= i.value < |b| && b[i.value] == 0 && forall j :: at <= j < i.value ==> b[j] != 0
    ensures i.None? ==> forall j :: at <= j < |b| ==> b[j] != 0
    decreases |b| - at
  {
    if at >= |b| then None else if b[at] == 0 then Some(at) else ZeroFrom(b, at + 1)
  }

  predicate Ascii(text: seq<int>) {
    forall i :: 0 <= i < |text| ==> 0 <= text[i] < 128
  }

  /** The NUL-terminated name at an offset of the strings block. */
  function NameAt(strings: Blob, at: nat): Option<Blob> {
    var end := ZeroFrom(strings, at);
    if end.Some? then Some(strings[at..end.value]) else None
  }

  /** The token at the front of `s`, and how many bytes it takes with its padding. */
  function DecodeHead(s: Blob, strings: Blob): (h: Option<Head>)
    ensures h.Some? ==> 4 <= h.value.size <= |s| && h.value.size % 4 == 0
  {
    if |s| < 4 then None
    else if U32(s, 0) == 1 then DecodeBegin(s)
    else if U32(s, 0) == 2 then Some(Head(End, 4))
    else if U32(s, 0) == 3 then DecodeProp(s, strings)
    else if U32(s, 0) == 4 then Some(Head(Nop, 4))
    else if U32(s, 0) == 9 then Some(Head(Finish, 4))
    else None
  }

  function DecodeBegin(s: Blob): (h: Option<Head>)
    requires |s| >= 4
    ensures h.Some? ==> 4 <= h.value.size <= |s| && h.value.size % 4 == 0
  {
    var end := ZeroFrom(s, 4);
    if end.None? then None
    else
      var size := Padded(end.value + 1);
      if size > |s| || !Ascii(s[4..end.value]) then None else Some(Head(Begin(s[4..end.value]), size))
  }

  lemma AfterTwelve(n: nat)
    requires n % 4 == 0
    ensures (12 + n) % 4 == 0
  {
  }

  function DecodeProp(s: Blob, strings: Blob): (h: Option<Head>)
    requires |s| >= 4
    ensures h.Some? ==> 4 <= h.value.size <= |s| && h.value.size % 4 == 0
  {
    if |s| < 12 then None
    else
      var length := U32(s, 4);
      var size := 12 + Padded(length);
      AfterTwelve(Padded(length));
      var name := NameAt(strings, U32(s, 8));
      if size > |s| || name.None? || !Ascii(name.value) then None
      else Some(Head(Prop(name.value, s[12..12 + length]), size))
  }

  function ReaderOf(strings: Blob): Reader {
    s => DecodeHead(s, strings)
  }

  ghost function Walked(s: Blob, strings: Blob): Option<seq<Token>> {
    ReaderSane(strings);
    Walk(ReaderOf(strings), s)
  }

  lemma ReaderGood(strings: Blob)
    ensures Sane(ReaderOf(strings)) && Local(ReaderOf(strings)) && Tight(ReaderOf(strings))
  {
    ReaderSane(strings);
    ReaderLocal(strings);
    ReaderTight(strings);
  }

  lemma ReaderSane(strings: Blob)
    ensures Sane(ReaderOf(strings))
  {
  }

  // ----- Locality: a token reads no further than its own bytes -----

  lemma U32Local(s: Blob, t: Blob, at: nat)
    requires at + 4 <= |s| && at + 4 <= |t| && s[at..at + 4] == t[at..at + 4]
    ensures U32(s, at) == U32(t, at)
  {
    var a, b := s[at..at + 4], t[at..at + 4];
    assert s[at] == a[0] && s[at + 1] == a[1] && s[at + 2] == a[2] && s[at + 3] == a[3];
    assert t[at] == b[0] && t[at + 1] == b[1] && t[at + 2] == b[2] && t[at + 3] == b[3];
  }

  lemma {:induction false} ZeroLocal(s: Blob, t: Blob, at: nat)
    requires s <= t && ZeroFrom(s, at).Some?
    ensures ZeroFrom(t, at) == ZeroFrom(s, at)
    decreases |s| - at
  {
    if s[at] != 0 {
      ZeroLocal(s, t, at + 1);
    }
  }

  lemma NameLocal(strings: Blob, more: Blob, at: nat)
    requires strings <= more && NameAt(strings, at).Some?
    ensures NameAt(more, at) == NameAt(strings, at)
  {
    ZeroLocal(strings, more, at);
    assert strings == more[..|strings|];
    var end := ZeroFrom(strings, at).value;
    assert strings[at..end] == more[at..end];
  }

  /** Bytes after the token and names appended to the strings block change nothing. */
  lemma HeadGrows(s: Blob, t: Blob, strings: Blob, more: Blob)
    requires s <= t && strings <= more && DecodeHead(s, strings).Some?
    ensures DecodeHead(t, more) == DecodeHead(s, strings)
  {
    assert s == t[..|s|];
    U32Local(s, t, 0);
    if U32(s, 0) == 1 {
      ZeroLocal(s, t, 4);
      var end := ZeroFrom(s, 4).value;
      assert s[4..end] == t[4..end];
    } else if U32(s, 0) == 3 {
      U32Local(s, t, 4);
      U32Local(s, t, 8);
      NameLocal(strings, more, U32(s, 8));
      assert s[12..12 + U32(s, 4)] == t[12..12 + U32(s, 4)];
    }
  }

  /** The token's own bytes decode to it. */
  lemma HeadShrinks(s: Blob, strings: Blob)
    requires DecodeHead(s, strings).Some?
    ensures DecodeHead(s[..DecodeHead(s, strings).value.size], strings) == DecodeHead(s, strings)
  {
    var c := s[..DecodeHead(s, strings).value.size];
    U32Local(s, c, 0);
    if U32(s, 0) == 1 {
      var end := ZeroFrom(s, 4).value;
      ZeroShrinks(s, c, 4);
      assert s[4..end] == c[4..end];
    } else if U32(s, 0) == 3 {
      U32Local(s, c, 4);
      U32Local(s, c, 8);
      assert s[12..12 + U32(s, 4)] == c[12..12 + U32(s, 4)];
    }
  }

  lemma {:induction false} ZeroShrinks(s: Blob, c: Blob, at: nat)
    requires c <= s && ZeroFrom(s, at).Some? && ZeroFrom(s, at).value < |c|
    ensures ZeroFrom(c, at) == ZeroFrom(s, at)
    decreases |s| - at
  {
    if s[at] != 0 {
      ZeroShrinks(s, c, at + 1);
    }
  }

  lemma ReaderLocal(strings: Blob)
    ensures Local(ReaderOf(strings))
  {
    forall s, t | s <= t && DecodeHead(s, strings).Some? ensures DecodeHead(t, strings) == DecodeHead(s, strings) {
      HeadGrows(s, t, strings, strings);
    }
  }

  lemma ReaderTight(strings: Blob)
    ensures Tight(ReaderOf(strings))
  {
    forall s | DecodeHead(s, strings).Some?
      ensures DecodeHead(s[..DecodeHead(s, strings).value.size], strings) == DecodeHead(s, strings)
    {
      HeadShrinks(s, strings);
    }
  }

  /** Names appended to the strings block leave every readable token as it was. */
  lemma ReaderGrows(strings: Blob, more: Blob)
    requires strings <= more
    ensures Extends(ReaderOf(strings), ReaderOf(more))
  {
    forall s | DecodeHead(s, strings).Some? ensures DecodeHead(s, more) == DecodeHead(s, strings) {
      HeadGrows(s, s, strings, more);
    }
  }

  /** The bytes of a property record: header words, value, zero padding. */
  function PropBytes(value: Blob, nameOffset: nat): Blob
    requires |value| < WORD && nameOffset < WORD
  {
    Pack(3) + Pack(|value|) + Pack(nameOffset) + (value + Zeros(Padded(|value|) - |value|))
  }

  lemma PropBytesDecode(value: Blob, nameOffset: nat, strings: Blob)
    requires |value| < WORD && nameOffset < WORD
    requires NameAt(strings, nameOffset).Some? && Ascii(NameAt(strings, nameOffset).value)
    ensures var c := PropBytes(value, nameOffset);
      DecodeHead(c, strings) == Some(Head(Prop(NameAt(strings, nameOffset).value, value), |c|))
  {
    var c := PropBytes(value, nameOffset);
    assert c[0..4] == Pack(3) && c[4..8] == Pack(|value|) && c[8..12] == Pack(nameOffset);
    WordAt(c, 0, 3);
    WordAt(c, 4, |value|);
    WordAt(c, 8, nameOffset);
    assert c[12..12 + |value|] == value;
  }

  lemma WordAt(c: Blob, at: nat, n: nat)
    requires n < WORD && at + 4 <= |c| && c[at..at + 4] == Pack(n)
    ensures U32(c, at) == n
  {
    PackReads(n);
    U32Local(c[at..at + 4], Pack(n), 0);
    var w := c[at..at + 4];
    assert c[at] == w[0] && c[at + 1] == w[1] && c[at + 2] == w[2] && c[at + 3] == w[3];
  }
}
