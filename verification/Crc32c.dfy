/** The bitwise CRC32C loop of the ext4 superblock guard (tools/forge_filesystem.py).

    A machine word is its bit sequence, low bit first. The polynomial is the bit-reversed
    Castagnoli polynomial of section 12.1 of RFC 3720.
 */
module Crc32c {
  import opened Wrappers

  type Word = w: seq<bool> | |w| == 32 witness seq(32, _ => false)

  /** The low `width` bits of a number, low bit first. */
  function Bits(n: nat, width: nat): (bits: seq<bool>)
    ensures |bits| == width
  {
    if width == 0 then [] else [n % 2 == 1] + Bits(n / 2, width - 1)
  }

  const POLYNOMIAL: nat := 0x82f63b78
  const SEED: nat := 0xffffffff

  function Xor(a: Word, b: Word): Word {
    seq(32, i requires 0 <= i < 32 => a[i] != b[i])
  }

  /** `value >> 1`, combined with the polynomial when the bit shifted out was set. */
  function Shift(poly: Word, value: Word): Word {
    Xor(value[1..] + [false], if value[0] then poly else seq(32, _ => false))
  }

  function Shifts(poly: Word, value: Word, n: nat): Word
    decreases n
  {
    if n == 0 then value else Shifts(poly, Shift(poly, value), n - 1)
  }

  function Absorb(poly: Word, value: Word, byte: Byte): Word {
    Shifts(poly, Xor(value, Bits(byte, 32)), 8)
  }

  /** The register after absorbing `data`, starting from `value`. */
  function Register(poly: Word, value: Word, data: seq<Byte>): Word
    decreases data
  {
    if data == [] then value else Register(poly, Absorb(poly, value, data[0]), data[1..])
  }

  function Checksum(data: seq<Byte>): Word {
    Register(Bits(POLYNOMIAL, 32), Bits(SEED, 32), data)
  }

  /** The two nested loops of the source, against the recursive register. */
  method Compute(data: seq<Byte>) returns (value: Word)
    ensures value == Checksum(data)
  {
    value := RegisterLoop(Bits(POLYNOMIAL, 32), Bits(SEED, 32), data);
  }

  method RegisterLoop(poly: Word, seed: Word, data: seq<Byte>) returns (value: Word)
    ensures value == Register(poly, seed, data)
  {
    value := seed;
    for i := 0 to |data|
      invariant Register(poly, value, data[i..]) == Register(poly, seed, data)
    {
      assert data[i..][1..] == data[i + 1..];
      value := AbsorbLoop(poly, value, data[i]);
    }
    assert data[|data|..] == [];
  }

  method AbsorbLoop(poly: Word, before: Word, byte: Byte) returns (value: Word)
    ensures value == Absorb(poly, before, byte)
  {
    value := Xor(before, Bits(byte, 32));
    for j := 0 to 8
      invariant Shifts(poly, value, 8 - j) == Absorb(poly, before, byte)
    {
      value := Shift(poly, value);
    }
  }

  /** The polynomial has its top bit set and the shift clears it, so the top bit of the
      result tells which branch was taken: nothing is lost. */
  lemma ShiftInjective(poly: Word, a: Word, b: Word)
    requires poly[31] && Shift(poly, a) == Shift(poly, b)
    ensures a == b
  {
    assert Shift(poly, a)[31] == a[0] && Shift(poly, b)[31] == b[0];
    forall i | 1 <= i < 32 ensures a[i] == b[i] {
      assert Shift(poly, a)[i - 1] == Shift(poly, b)[i - 1];
    }
  }

  lemma {:induction false} ShiftsInjective(poly: Word, a: Word, b: Word, n: nat)
    requires poly[31] && Shifts(poly, a, n) == Shifts(poly, b, n)
    ensures a == b
    decreases n
  {
    if n > 0 {
      ShiftsInjective(poly, Shift(poly, a), Shift(poly, b), n - 1);
      ShiftInjective(poly, a, b);
    }
  }

  lemma {:induction false} ShiftsLinear(poly: Word, a: Word, b: Word, n: nat)
    ensures Shifts(poly, Xor(a, b), n) == Xor(Shifts(poly, a, n), Shifts(poly, b, n))
    decreases n
  {
    if n > 0 {
      assert Shift(poly, Xor(a, b)) == Xor(Shift(poly, a), Shift(poly, b));
      ShiftsLinear(poly, Shift(poly, a), Shift(poly, b), n - 1);
    }
  }

  /** The word is zero from bit `from` upwards. */
  predicate ZeroFrom(w: Word, from: nat) {
    forall i :: from <= i < 32 ==> !w[i]
  }

  /** Shifts whose result is zero in its top `n` bits only moved the word down by `n`. */
  lemma {:induction false} ShiftsReversible(poly: Word, y: Word, n: nat)
    requires poly[31] && n <= 32 && ZeroFrom(Shifts(poly, y, n), 32 - n)
    ensures forall i :: 0 <= i < n ==> !y[i]
    ensures forall i :: n <= i < 32 ==> y[i] == Shifts(poly, y, n)[i - n]
    decreases n
  {
    if n > 0 {
      ShiftsReversible(poly, Shift(poly, y), n - 1);
      assert Shift(poly, y)[31] == y[0];
      assert Shift(poly, y)[31] == Shifts(poly, y, n)[32 - n];
      forall i | 1 <= i < 32 ensures y[i] == Shift(poly, y)[i - 1] {
      }
    }
  }

  /** Equal data never makes two different registers agree. */
  lemma {:induction false} RegisterInjective(poly: Word, a: Word, b: Word, data: seq<Byte>)
    requires poly[31] && Register(poly, a, data) == Register(poly, b, data)
    ensures a == b
    decreases data
  {
    if data != [] {
      RegisterInjective(poly, Absorb(poly, a, data[0]), Absorb(poly, b, data[0]), data[1..]);
      var x: Word := Bits(data[0], 32);
      ShiftsInjective(poly, Xor(a, x), Xor(b, x), 8);
      forall i | 0 <= i < 32 ensures a[i] == b[i] {
        assert Xor(a, x)[i] == Xor(b, x)[i];
      }
    }
  }

  lemma {:induction false} RegisterSplit(poly: Word, value: Word, a: seq<Byte>, b: seq<Byte>)
    ensures Register(poly, value, a + b) == Register(poly, Register(poly, value, a), b)
    decreases a
  {
    if a == [] {
      assert a + b == b;
    } else {
      assert (a + b)[1..] == a[1..] + b;
      RegisterSplit(poly, Absorb(poly, value, a[0]), a[1..], b);
    }
  }

  function Power2(n: nat): (p: nat)
    ensures p > 0
  {
    if n == 0 then 1 else 2 * Power2(n - 1)
  }

  lemma {:induction false} BitsInjective(x: nat, y: nat, width: nat, size: nat)
    requires size <= width && x < Power2(size) && y < Power2(size)
    requires Bits(x, width) == Bits(y, width)
    ensures x == y
    decreases size
  {
    if size > 0 {
      assert Bits(x, width)[0] == Bits(y, width)[0];
      assert Bits(x, width)[1..] == Bits(y, width)[1..];
      BitsInjective(x / 2, y / 2, width - 1, size - 1);
    }
  }

  /** A byte has no bits from the eighth on. */
  lemma {:induction false} SmallBits(n: nat, width: nat, from: nat)
    requires n < Power2(from)
    ensures forall i :: from <= i < width ==> !Bits(n, width)[i]
    decreases width
  {
    if width > 0 {
      if from > 0 {
        SmallBits(n / 2, width - 1, from - 1);
        forall i | from <= i < width ensures !Bits(n, width)[i] {
          assert Bits(n, width)[i] == Bits(n / 2, width - 1)[i - 1];
        }
      } else {
        SmallBits(n / 2, width - 1, 0);
        forall i | 1 <= i < width ensures !Bits(n, width)[i] {
          assert Bits(n, width)[i] == Bits(n / 2, width - 1)[i - 1];
        }
      }
    }
  }

  /** Undoing a byte's shifts moves the difference of two words up by eight bits. */
  lemma DifferenceBefore(a: Word, b: Word, a1: Word, b1: Word, x: Word, y: Word, from: nat)
    requires ZeroFrom(x, 8) && ZeroFrom(y, 8) && ZeroFrom(Xor(a1, b1), from)
    requires var moved := Xor(Xor(a, x), Xor(b, y)); forall i :: 8 <= i < 32 ==> moved[i] == Xor(a1, b1)[i - 8]
    ensures ZeroFrom(Xor(a, b), from + 8)
  {
    var moved := Xor(Xor(a, x), Xor(b, y));
    forall i | from + 8 <= i < 32 ensures !Xor(a, b)[i] {
      assert moved[i] == Xor(a1, b1)[i - 8];
    }
  }

  /** Two words that differed at most in their low eight bits, and not in those. */
  lemma SameBefore(a: Word, a1: Word, b1: Word, x: Word, y: Word)
    requires ZeroFrom(x, 8) && ZeroFrom(y, 8) && ZeroFrom(Xor(a1, b1), 24)
    requires var moved := Xor(Xor(a, x), Xor(a, y));
      (forall i :: 0 <= i < 8 ==> !moved[i]) && forall i :: 8 <= i < 32 ==> moved[i] == Xor(a1, b1)[i - 8]
    ensures a1 == b1 && x == y
  {
    var moved := Xor(Xor(a, x), Xor(a, y));
    forall i | 0 <= i < 32 ensures a1[i] == b1[i] {
      if i < 24 {
        assert moved[i + 8] == Xor(a1, b1)[i];
      } else {
        assert !Xor(a1, b1)[i];
      }
    }
    forall i | 0 <= i < 32 ensures x[i] == y[i] {
      assert moved[i] == (x[i] != y[i]);
    }
  }

  /** Up to four bytes fit the register, so each one can be read back: two registers that end
      equal after `k` bytes differed at most in their low 8k bits, and if they started equal
      the bytes were equal. */
  lemma {:induction false} WindowInjective(poly: Word, a: Word, b: Word, xs: seq<Byte>, ys: seq<Byte>)
    requires poly[31] && |xs| == |ys| <= 4
    requires Register(poly, a, xs) == Register(poly, b, ys)
    ensures ZeroFrom(Xor(a, b), 8 * |xs|)
    ensures a == b ==> xs == ys
    decreases xs
  {
    if xs != [] {
      var k := |xs|;
      var x: Word, y: Word := Bits(xs[0], 32), Bits(ys[0], 32);
      var a1, b1 := Absorb(poly, a, xs[0]), Absorb(poly, b, ys[0]);
      WindowInjective(poly, a1, b1, xs[1..], ys[1..]);
      var moved := Xor(Xor(a, x), Xor(b, y));
      ShiftsLinear(poly, Xor(a, x), Xor(b, y), 8);
      assert Shifts(poly, moved, 8) == Xor(a1, b1);
      ShiftsReversible(poly, moved, 8);
      assert Power2(8) == 256;
      SmallBits(xs[0], 32, 8);
      SmallBits(ys[0], 32, 8);
      DifferenceBefore(a, b, a1, b1, x, y, 8 * (k - 1));
      if a == b {
        SameBefore(a, a1, b1, x, y);
        BitsInjective(xs[0], ys[0], 32, 8);
        assert xs == [xs[0]] + xs[1..] && ys == [ys[0]] + ys[1..];
      }
    }
  }

  /** The general form: any seed and any polynomial whose top bit is set. */
  lemma WindowDetected(poly: Word, seed: Word, before: seq<Byte>, a: seq<Byte>, b: seq<Byte>, after: seq<Byte>)
    requires poly[31] && |a| == |b| <= 4 && a != b
    ensures Register(poly, seed, before + a + after) != Register(poly, seed, before + b + after)
  {
    var start := Register(poly, seed, before);
    RegisterSplit(poly, seed, before + a, after);
    RegisterSplit(poly, seed, before + b, after);
    RegisterSplit(poly, seed, before, a);
    RegisterSplit(poly, seed, before, b);
    if Register(poly, start, a) == Register(poly, start, b) {
      WindowInjective(poly, start, start, a, b);
    } else if Register(poly, seed, before + a + after) == Register(poly, seed, before + b + after) {
      RegisterInjective(poly, Register(poly, start, a), Register(poly, start, b), after);
    }
  }

  lemma {:induction false} TopBit(n: nat, width: nat)
    requires width > 0 && Power2(width - 1) <= n < Power2(width)
    ensures Bits(n, width)[width - 1]
  {
    if width > 1 {
      TopBit(n / 2, width - 1);
    }
  }

  lemma {:induction false} Power2Sum(a: nat, b: nat)
    ensures Power2(a + b) == Power2(a) * Power2(b)
  {
    if a > 0 {
      Power2Sum(a - 1, b);
    }
  }

  lemma Power2Words()
    ensures Power2(31) == 0x8000_0000 && Power2(32) == 0x1_0000_0000
  {
    assert Power2(7) == 128 && Power2(8) == 256;
    Power2Sum(8, 8);
    Power2Sum(8, 7);
    Power2Sum(16, 16);
    Power2Sum(16, 15);
  }

  /** Burst detection: strings that differ only inside four consecutive bytes never share a
      checksum, whatever surrounds the window. */
  lemma BurstDetected(before: seq<Byte>, a: seq<Byte>, b: seq<Byte>, after: seq<Byte>)
    requires |a| == |b| <= 4 && a != b
    ensures Checksum(before + a + after) != Checksum(before + b + after)
  {
    Power2Words();
    TopBit(POLYNOMIAL, 32);
    WindowDetected(Bits(POLYNOMIAL, 32), Bits(SEED, 32), before, a, b, after);
  }
}
