/** The cyclic keystream cipher and the derivation of session keys. */
module Crypto {
  import opened Bytes
  import opened Buffers

  /** What Xor computes: data byte i is combined with key byte i modulo the key's length. */
  function XorBytes(data: seq<byte>, key: seq<byte>): (r: seq<byte>)
    requires |data| > 0 ==> |key| > 0
    ensures |r| == |data|
  {
    seq(|data|, i requires 0 <= i < |data| => XorByte(data[i], key[i % |key|]))
  }

  /** The cipher told bit by bit: a bit of the result is set exactly when the bits of data and key differ. */
  predicate Ciphered(data: seq<byte>, key: seq<byte>, cipher: seq<byte>)
    requires |data| > 0 ==> |key| > 0
  {
    && |cipher| == |data|
    && forall k, i :: 0 <= k < |data| && 0 <= i < 8 ==>
         BitOf(cipher[k], i) == if BitOf(data[k], i) == BitOf(key[k % |key|], i) then 0 else 1
  }

  lemma XorCiphers(data: seq<byte>, key: seq<byte>)
    requires |data| > 0 ==> |key| > 0
    ensures Ciphered(data, key, XorBytes(data, key))
  {
    forall k, i | 0 <= k < |data| && 0 <= i < 8
      ensures BitOf(XorBytes(data, key)[k], i) == if BitOf(data[k], i) == BitOf(key[k % |key|], i) then 0 else 1
    {
      XorByteBits(data[k], key[k % |key|], i);
    }
  }

  /** The bits leave no choice: they are those of Xor's result and of no other. */
  lemma XorExactly(data: seq<byte>, key: seq<byte>, cipher: seq<byte>)
    requires |data| > 0 ==> |key| > 0
    ensures Ciphered(data, key, cipher) <==> cipher == XorBytes(data, key)
  {
    XorCiphers(data, key);
    if Ciphered(data, key, cipher) {
      forall k | 0 <= k < |data|
        ensures cipher[k] == XorBytes(data, key)[k]
      {
        var x := XorBytes(data, key)[k];
        var a, b: nat := cipher[k] as nat, x as nat;
        assert TwoTo(8) == 256 by { assert TwoTo(4) == 16; }
        forall i | 0 <= i < 8
          ensures Bit(a, i) == Bit(b, i)
        {
          assert BitOf(cipher[k], i) == BitOf(x, i);
        }
        SameBits(a, b, 8);
      }
    }
  }

  /** One byte of a packet, and one of a key. */
  lemma XorExample()
    ensures XorBytes([0x45], [0x01]) == [0x44]
  {
    XorBitsExample();
  }

  lemma XorBitsExample()
    ensures XorBits(0x45, 0x01, 8) == 0x44
  {
    assert XorBits(4, 0, 4) == 4;
    assert XorBits(8, 0, 5) == 8;
    assert XorBits(17, 0, 6) == 17;
    assert XorBits(34, 0, 7) == 34;
  }

  lemma XorInvolution(data: seq<byte>, key: seq<byte>)
    requires |key| > 0
    ensures XorBytes(XorBytes(data, key), key) == data
  {
    forall i | 0 <= i < |data|
      ensures XorBytes(XorBytes(data, key), key)[i] == data[i]
    {
      XorByteCancels(data[i], key[i % |key|]);
    }
  }

  /** Different packets have different ciphertexts under one key. */
  lemma XorInjective(a: seq<byte>, b: seq<byte>, key: seq<byte>)
    requires |key| > 0 && XorBytes(a, key) == XorBytes(b, key)
    ensures a == b
  {
    XorInvolution(a, key);
    XorInvolution(b, key);
  }

  lemma XorCommutes(data: seq<byte>, key: seq<byte>, other: seq<byte>)
    requires |key| > 0 && |other| > 0
    ensures XorBytes(XorBytes(data, key), other) == XorBytes(XorBytes(data, other), key)
  {
    forall i | 0 <= i < |data|
      ensures XorBytes(XorBytes(data, key), other)[i] == XorBytes(XorBytes(data, other), key)[i]
    {
      XorByteExchange(data[i], key[i % |key|], other[i % |other|]);
    }
  }

  function Rotate(key: seq<byte>, n: nat): (r: seq<byte>)
    requires n <= |key|
    ensures |r| == |key|
  {
    key[n..] + key[..n]
  }

  lemma MulAtLeast(k: int, n: nat)
    requires k >= 1
    ensures k * n >= n
  {
    assert k * n == (k - 1) * n + n;
  }

  lemma QuotientUnique(q: int, r: int, q': int, r': int, n: nat)
    requires 0 <= r < n && 0 <= r' < n && q * n + r == q' * n + r'
    ensures r == r'
  {
    assert (q - q') * n == q * n - q' * n;
    assert (q' - q) * n == q' * n - q * n;
    if q > q' {
      MulAtLeast(q - q', n);
    } else if q < q' {
      MulAtLeast(q' - q, n);
    }
  }

  lemma ModUnique(x: int, q: int, r: int, n: nat)
    requires n > 0 && 0 <= r < n && x == q * n + r
    ensures x % n == r
  {
    QuotientUnique(q, r, x / n, x % n, n);
  }

  /** Remainders add up, wrapping at most once. */
  lemma ModSum(a: nat, b: nat, n: nat)
    requires n > 0
    ensures (a + b) % n == if a % n + b % n < n then a % n + b % n else a % n + b % n - n
  {
    var q, r := a / n + b / n, a % n + b % n;
    assert q * n == a / n * n + b / n * n;
    assert (q + 1) * n == q * n + n;
    if r < n {
      ModUnique(a + b, q, r, n);
    } else {
      ModUnique(a + b, q + 1, r - n, n);
    }
  }

  lemma RotateAt(key: seq<byte>, a: nat, j: nat)
    requires |key| > 0
    ensures Rotate(key, a % |key|)[j % |key|] == key[(a + j) % |key|]
  {
    ModSum(a, j, |key|);
  }

  /** The keystream restarts for each packet: a split continues under a rotated key. */
  lemma XorSplit(a: seq<byte>, b: seq<byte>, key: seq<byte>)
    requires |key| > 0
    ensures XorBytes(a + b, key) == XorBytes(a, key) + XorBytes(b, Rotate(key, |a| % |key|))
  {
    var whole, n := XorBytes(a + b, key), |key|;
    assert whole[..|a|] == XorBytes(a, key);
    forall j | 0 <= j < |b|
      ensures whole[|a| + j] == XorByte(b[j], Rotate(key, |a| % n)[j % n])
    {
      RotateAt(key, |a|, j);
    }
    assert whole[|a|..] == XorBytes(b, Rotate(key, |a| % n));
  }

  /** The index loop both overloads share. */
  method XorInPlace(buf: array<byte>, key: seq<byte>)
    requires buf.Length > 0 ==> |key| > 0
    modifies buf
    ensures buf[..] == XorBytes(old(buf[..]), key) && Ciphered(old(buf[..]), key, buf[..])
  {
    var i := 0;
    while i < buf.Length
      invariant 0 <= i <= buf.Length
      invariant forall k :: 0 <= k < i ==> buf[k] == XorByte(old(buf[k]), key[k % |key|])
      invariant forall k :: i <= k < buf.Length ==> buf[k] == old(buf[k])
    {
      buf[i] := XorByte(buf[i], key[i % |key|]);
      i := i + 1;
    }
    assert buf[..] == XorBytes(old(buf[..]), key);
    XorCiphers(old(buf[..]), key);
  }

  /** Xor of a span: the result is a fresh array, the span's own bytes stay as they are. */
  method Xor(packet: Span, key: seq<byte>) returns (buf: array<byte>)
    requires packet.Valid() && (packet.size > 0 ==> |key| > 0)
    ensures fresh(buf) && buf[..] == XorBytes(packet.Content(), key) && Ciphered(packet.Content(), key, buf[..])
  {
    buf := new byte[packet.size];
    forall i | 0 <= i < packet.size {
      buf[i] := packet.base[packet.start + i];
    }
    assert buf[..] == packet.Content();
    XorInPlace(buf, key);
  }

  /** Xor of a vector passed by value. */
  method XorVector(packet: seq<byte>, key: seq<byte>) returns (buf: array<byte>)
    requires |packet| > 0 ==> |key| > 0
    ensures fresh(buf) && buf[..] == XorBytes(packet, key) && Ciphered(packet, key, buf[..])
  {
    buf := new byte[|packet|](i requires 0 <= i < |packet| => packet[i]);
    assert buf[..] == packet;
    XorInPlace(buf, key);
  }

  /**
    The output stream of a 64-bit engine: number n of the sequence that follows
    seeding. The standard's mt19937_64 is one such stream.
  */
  type Stream = (u64, nat) -> u64

  class Engine {
    const stream: Stream
    var state: u64
    var drawn: nat

    constructor (stream: Stream)
      ensures this.stream == stream
    {
      this.stream, state, drawn := stream, 5489, 0;
    }

    method Seed(seed: u64)
      modifies this
      ensures state == seed && drawn == 0
    {
      state, drawn := seed, 0;
    }

    method Draw() returns (r: u64)
      modifies this`drawn
      ensures r == stream(state, old(drawn)) && drawn == old(drawn) + 1
    {
      r := stream(state, drawn);
      drawn := drawn + 1;
    }
  }

  /** Byte k of a derived key: eight big-endian bytes per output, the first output being skipped. */
  function KeyByte(stream: Stream, seed: u64, k: nat): byte {
    BigEndian(stream(stream(seed, 0), 1 + k / 8), 8)[k % 8]
  }

  function KeyPrefix(stream: Stream, seed: u64, n: nat): (key: seq<byte>)
    ensures |key| == n
  {
    seq(n, k requires 0 <= k < n => KeyByte(stream, seed, k))
  }

  function DerivedKey(stream: Stream, seed: u64): (key: seq<byte>)
    ensures |key| == 4096
  {
    KeyPrefix(stream, seed, 4096)
  }

  lemma KeyPrefixStep(stream: Stream, seed: u64, n: nat)
    requires n % 8 == 0
    ensures KeyPrefix(stream, seed, n + 8)
            == KeyPrefix(stream, seed, n) + BigEndian(stream(stream(seed, 0), 1 + n / 8), 8)
  {
    assert forall k :: n <= k < n + 8 ==> k / 8 == n / 8 && k % 8 == k - n;
  }

  method GenerateKey(stream: Stream, seed: u64) returns (key: seq<byte>)
    ensures key == DerivedKey(stream, seed)
    ensures |key| == 4096
    ensures forall k :: 0 <= k < 4096 ==> key[k] == BigEndian(stream(stream(seed, 0), 1 + k / 8), 8)[k % 8]
  {
    var generator := new Engine(stream);
    generator.Seed(seed);
    var reseed := generator.Draw();
    generator.Seed(reseed);
    var skipped := generator.Draw();
    var buf := new DynamicBuffer(0);
    var i := 0;
    while i < 4096
      invariant 0 <= i <= 4096 && i % 8 == 0
      invariant generator.state == reseed && generator.drawn == 1 + i / 8
      invariant buf.Valid() && !buf.soughtBack
      invariant buf.vector.bytes == KeyPrefix(stream, seed, i)
    {
      KeyPrefixStep(stream, seed, i);
      var word := generator.Draw();
      buf.Write(word, 8, true);
      i := i + 8;
    }
    key := buf.vector.bytes;
  }
}
