/**
  Octets and machine words: the byte order conversions every buffer of the
  server relies on, and bitwise exclusive or.
*/
module Bytes {

  import opened Seqs

  newtype byte = x: int | 0 <= x < 0x100

  const U16: nat := 0x1_0000
  const U32: nat := 0x1_0000_0000
  const U64: nat := 0x1_0000_0000_0000_0000

  type u16 = x: nat | x < 0x1_0000
  type u32 = x: nat | x < 0x1_0000_0000
  type u64 = x: nat | x < 0x1_0000_0000_0000_0000

  function Reverse<T>(s: seq<T>): (r: seq<T>)
    ensures |r| == |s|
  {
    seq(|s|, i requires 0 <= i < |s| => s[|s| - 1 - i])
  }

  lemma ReverseTwice<T>(s: seq<T>)
    ensures Reverse(Reverse(s)) == s
  {
  }

  lemma ReversePush<T>(x: T, s: seq<T>)
    ensures Reverse([x] + s) == Reverse(s) + [x]
  {
  }

  /** The bytes of a word as the little-endian host holds them in memory. */
  function LittleEndian(v: nat, width: nat): (s: seq<byte>)
    ensures |s| == width
  {
    if width == 0 then [] else [(v % 256) as byte] + LittleEndian(v / 256, width - 1)
  }

  function LittleValue(s: seq<byte>): nat {
    if s == [] then 0 else s[0] as nat + 256 * LittleValue(s[1..])
  }

  function BigEndian(v: nat, width: nat): (s: seq<byte>)
    ensures |s| == width
  {
    Reverse(LittleEndian(v, width))
  }

  function BigValue(s: seq<byte>): nat {
    LittleValue(Reverse(s))
  }

  /** Number of values a word of `width` bytes can hold. */
  function Range(width: nat): nat {
    if width == 0 then 1 else 256 * Range(width - 1)
  }

  lemma Ranges()
    ensures Range(1) == 0x100 && Range(2) == U16 && Range(4) == U32 && Range(8) == U64
  {
    assert Range(1) == 0x100;
    assert Range(3) == 0x100_0000;
    assert Range(4) == U32;
    assert Range(6) == 0x1_0000_0000_0000;
  }

  lemma {:induction false} LittleRoundTrip(v: nat, width: nat)
    requires v < Range(width)
    ensures LittleValue(LittleEndian(v, width)) == v
  {
    if width > 0 {
      LittleRoundTrip(v / 256, width - 1);
      assert LittleEndian(v, width)[1..] == LittleEndian(v / 256, width - 1);
    }
  }

  lemma {:induction false} LittleBound(s: seq<byte>)
    ensures LittleValue(s) < Range(|s|)
  {
    if s != [] {
      LittleBound(s[1..]);
    }
  }

  lemma {:induction false} LittleBytes(s: seq<byte>)
    ensures LittleEndian(LittleValue(s), |s|) == s
  {
    if s != [] {
      LittleBytes(s[1..]);
      assert LittleValue(s) % 256 == s[0] as nat && LittleValue(s) / 256 == LittleValue(s[1..]);
    }
  }

  function PowerOf256(n: nat): nat {
    if n == 0 then 1 else 256 * PowerOf256(n - 1)
  }

  lemma {:induction false} LittleLast(s: seq<byte>, b: byte)
    ensures LittleValue(s + [b]) == LittleValue(s) + b as nat * PowerOf256(|s|)
  {
    if s == [] {
      assert [] + [b] == [b] && [b][1..] == [];
    } else {
      LittleLast(s[1..], b);
      assert (s + [b])[1..] == s[1..] + [b];
      assert 256 * (b as nat * PowerOf256(|s| - 1)) == b as nat * PowerOf256(|s|);
    }
  }

  lemma ReverseFirst<T>(s: seq<T>)
    requires s != []
    ensures Reverse(s) == Reverse(s[1..]) + [s[0]]
  {
  }

  /** The first byte of a big-endian word is its highest digit in base 256. */
  lemma BigFirst(s: seq<byte>)
    requires s != []
    ensures BigValue(s) == s[0] as nat * PowerOf256(|s| - 1) + BigValue(s[1..])
  {
    LittleLast(Reverse(s[1..]), s[0]);
    ReverseFirst(s);
  }

  lemma BigRoundTrip(v: nat, width: nat)
    requires v < Range(width)
    ensures BigValue(BigEndian(v, width)) == v
  {
    ReverseTwice(LittleEndian(v, width));
    LittleRoundTrip(v, width);
  }

  lemma BigBound(s: seq<byte>)
    ensures BigValue(s) < Range(|s|)
  {
    LittleBound(Reverse(s));
  }

  lemma BigBytes(s: seq<byte>)
    ensures BigEndian(BigValue(s), |s|) == s
  {
    LittleBytes(Reverse(s));
    ReverseTwice(s);
  }

  /** The big-endian words at a position. */
  function WordAt(s: seq<byte>, at: nat, width: nat): nat
    requires at + width <= |s|
  {
    BigValue(s[at..at + width])
  }

  function U16At(s: seq<byte>, at: nat): u16
    requires at + 2 <= |s|
  {
    Ranges();
    BigBound(s[at..at + 2]);
    WordAt(s, at, 2)
  }

  function U32At(s: seq<byte>, at: nat): u32
    requires at + 4 <= |s|
  {
    Ranges();
    BigBound(s[at..at + 4]);
    WordAt(s, at, 4)
  }

  /** Reverses the bytes of a word where it stands. */
  method ReverseEndianness(a: array<byte>)
    modifies a
    ensures a[..] == Reverse(old(a[..]))
  {
    var lo, hi := 0, a.Length;
    while lo + 1 < hi
      invariant 0 <= lo <= hi <= a.Length && lo + hi == a.Length
      invariant forall k :: 0 <= k < lo || hi <= k < a.Length ==> a[k] == old(a[a.Length - 1 - k])
      invariant forall k :: lo <= k < hi ==> a[k] == old(a[k])
    {
      hi := hi - 1;
      a[lo], a[hi] := a[hi], a[lo];
      lo := lo + 1;
    }
  }

  /** Exclusive or of the low `bits` bits of two words. */
  function XorBits(a: nat, b: nat, bits: nat): nat {
    if bits == 0 then 0 else (if a % 2 == b % 2 then 0 else 1) + 2 * XorBits(a / 2, b / 2, bits - 1)
  }

  function Bit(a: nat, i: nat): nat {
    if i == 0 then a % 2 else Bit(a / 2, i - 1)
  }

  function TwoTo(bits: nat): nat {
    if bits == 0 then 1 else 2 * TwoTo(bits - 1)
  }

  lemma {:induction false} XorBound(a: nat, b: nat, bits: nat)
    ensures XorBits(a, b, bits) < TwoTo(bits)
  {
    if bits > 0 {
      XorBound(a / 2, b / 2, bits - 1);
    }
  }

  /** Bit i of the result is set exactly when the operands differ there. */
  lemma {:induction false} XorBitwise(a: nat, b: nat, bits: nat, i: nat)
    requires i < bits
    ensures Bit(XorBits(a, b, bits), i) == (if Bit(a, i) == Bit(b, i) then 0 else 1)
  {
    if i > 0 {
      XorBitwise(a / 2, b / 2, bits - 1, i - 1);
    }
  }

  lemma {:induction false} XorCancels(a: nat, b: nat, bits: nat)
    requires a < TwoTo(bits)
    ensures XorBits(XorBits(a, b, bits), b, bits) == a
  {
    if bits > 0 {
      XorCancels(a / 2, b / 2, bits - 1);
      assert XorBits(a, b, bits) / 2 == XorBits(a / 2, b / 2, bits - 1);
    }
  }

  lemma {:induction false} XorExchange(a: nat, b: nat, c: nat, bits: nat)
    ensures XorBits(XorBits(a, b, bits), c, bits) == XorBits(XorBits(a, c, bits), b, bits)
  {
    if bits > 0 {
      XorExchange(a / 2, b / 2, c / 2, bits - 1);
      assert XorBits(a, b, bits) / 2 == XorBits(a / 2, b / 2, bits - 1);
      assert XorBits(a, c, bits) / 2 == XorBits(a / 2, c / 2, bits - 1);
    }
  }

  function XorByte(a: byte, b: byte): byte {
    assert TwoTo(8) == 256 by { assert TwoTo(4) == 16; }
    XorBound(a as nat, b as nat, 8);
    XorBits(a as nat, b as nat, 8) as byte
  }

  function BitOf(b: byte, i: nat): nat {
    Bit(b as nat, i)
  }

  /** Bit i of the byte is set exactly when the operands differ there. */
  lemma XorByteBits(a: byte, b: byte, i: nat)
    requires i < 8
    ensures BitOf(XorByte(a, b), i) == (if BitOf(a, i) == BitOf(b, i) then 0 else 1)
  {
    XorBitwise(a as nat, b as nat, 8, i);
  }

  /** A word is what its low bits add up to. */
  function BitSum(n: nat, bits: nat): nat {
    if bits == 0 then 0 else BitSum(n, bits - 1) + Bit(n, bits - 1) * TwoTo(bits - 1)
  }

  lemma {:induction false} BitSumFirst(n: nat, bits: nat)
    ensures BitSum(n, bits + 1) == n % 2 + 2 * BitSum(n / 2, bits)
  {
    if bits > 0 {
      BitSumFirst(n, bits - 1);
      assert Bit(n, bits) == Bit(n / 2, bits - 1);
      assert Bit(n, bits) * TwoTo(bits) == 2 * (Bit(n / 2, bits - 1) * TwoTo(bits - 1));
    } else {
      assert BitSum(n, 1) == Bit(n, 0) * TwoTo(0);
    }
  }

  lemma {:induction false} BitsAddUp(n: nat, bits: nat)
    requires n < TwoTo(bits)
    ensures BitSum(n, bits) == n
  {
    if bits > 0 {
      BitsAddUp(n / 2, bits - 1);
      BitSumFirst(n, bits - 1);
    }
  }

  lemma {:induction false} SameBits(a: nat, b: nat, bits: nat)
    requires a < TwoTo(bits) && b < TwoTo(bits)
    requires forall i :: 0 <= i < bits ==> Bit(a, i) == Bit(b, i)
    ensures a == b
  {
    if bits > 0 {
      assert Bit(a, 0) == Bit(b, 0);
      forall i | 0 <= i < bits - 1
        ensures Bit(a / 2, i) == Bit(b / 2, i)
      {
        assert Bit(a, i + 1) == Bit(b, i + 1);
      }
      SameBits(a / 2, b / 2, bits - 1);
    }
  }

  lemma XorByteCancels(a: byte, b: byte)
    ensures XorByte(XorByte(a, b), b) == a
  {
    assert TwoTo(8) == 256 by { assert TwoTo(4) == 16; }
    XorCancels(a as nat, b as nat, 8);
  }

  lemma XorByteExchange(a: byte, b: byte, c: byte)
    ensures XorByte(XorByte(a, b), c) == XorByte(XorByte(a, c), b)
  {
    XorExchange(a as nat, b as nat, c as nat, 8);
  }

  /** A view of `size` bytes of an array it does not own (a std::span). */
  datatype Span = Span(base: array<byte>, start: nat, size: nat) {

    ghost predicate Valid() {
      start + size <= base.Length
    }

    ghost function Content(): (s: seq<byte>)
      requires Valid()
      reads base
      ensures |s| == size
    {
      base[start..start + size]
    }

    lemma Part(lo: nat, hi: nat)
      requires Valid() && lo <= hi <= size
      ensures base[start + lo..start + hi] == Content()[lo..hi]
    {
      SliceOfSlice(base[..], start, size, lo, hi);
    }
  }
}
