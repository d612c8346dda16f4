/** Bytes, Java `long`s and the 8-byte little-endian encoding the binding
    computation feeds to the digest (a `ByteBuffer` ordered `LITTLE_ENDIAN`
    receiving `putLong`). */
module Bytes {

  newtype byte = b: int | 0 <= b < 0x100

  type Bytes = seq<byte>

  /** Java's `int`. */
  newtype int32 = x: int | -0x8000_0000 <= x < 0x8000_0000

  /** Java's `long`. */
  newtype int64 = x: int | -0x8000_0000_0000_0000 <= x < 0x8000_0000_0000_0000

  const TwoTo63: int := 0x8000_0000_0000_0000
  const TwoTo64: int := 0x1_0000_0000_0000_0000

  function Pow256(n: nat): (r: nat)
    ensures r > 0
  {
    if n == 0 then 1 else 256 * Pow256(n - 1)
  }

  /** The `n` low-order bytes of `v` in two's complement, least significant
      first. Dafny's `/` and `%` by a positive divisor round towards minus
      infinity, which is what an arithmetic shift right does to a negative
      `long`. */
  function LittleEndian(v: int, n: nat): (r: Bytes)
    ensures |r| == n
    decreases n
  {
    if n == 0 then [] else [(v % 256) as byte] + LittleEndian(v / 256, n - 1)
  }

  /** The unsigned value of a little-endian byte string. */
  function Unsigned(bs: Bytes): (r: nat)
    ensures r < Pow256(|bs|)
  {
    if |bs| == 0 then 0 else bs[0] as int + 256 * Unsigned(bs[1..])
  }

  /** What `ByteBuffer.allocate(8).order(LITTLE_ENDIAN).putLong(e)` holds. */
  function Le64(e: int64): (r: Bytes)
    ensures |r| == 8
    ensures forall i :: 0 <= i < 8 ==> r[i] as int == (e as int / Pow256(i)) % 256
  {
    var r := LittleEndian(e as int, 8);
    forall i | 0 <= i < 8
      ensures r[i] as int == (e as int / Pow256(i)) % 256
    {
      LittleEndianByte(e as int, 8, i);
    }
    r
  }

  /** Reads eight little-endian bytes back as a `long` (what `getLong` on the
      same buffer would return). */
  function FromLe64(bs: Bytes): (e: int64)
    requires |bs| == 8
  {
    var u := Unsigned(bs);
    assert Pow256(8) == TwoTo64;
    if u < TwoTo63 then u as int64 else (u - TwoTo64) as int64
  }

  // ---------------------------------------------------------------------
  // Lemmas

  /** Dividing twice is dividing by the product. */
  lemma DivDiv(v: int, a: int, b: int)
    requires a > 0 && b > 0
    ensures (v / a) / b == v / (a * b)
  {
    var q := v / a;
    var r := v % a;
    var q2 := q / b;
    var r2 := q % b;
    calc {
      v;
      a * q + r;
      { assert q == b * q2 + r2; }
      a * (b * q2 + r2) + r;
      { MulAssoc(a, b, q2); }
      (a * b) * q2 + (a * r2 + r);
    }
    MulMono(a, r2, b - 1);
    assert a * (b - 1) == a * b - a;
    DivUnique(v, a * b, q2, a * r2 + r);
  }

  lemma MulAssoc(a: int, b: int, c: int)
    ensures a * (b * c) == (a * b) * c
  {
  }

  lemma MulMono(d: int, x: int, y: int)
    requires d >= 0 && x <= y
    ensures d * x <= d * y
  {
    assert d * y - d * x == d * (y - x);
  }

  /** Euclidean division is determined by quotient and remainder. */
  lemma DivUnique(v: int, d: int, q: int, r: int)
    requires d > 0 && 0 <= r < d && v == d * q + r
    ensures v / d == q
  {
    var q' := v / d;
    var r' := v % d;
    assert v == d * q' + r';
    if q' < q {
      MulMono(d, q', q - 1);
      assert false;
    } else if q' > q {
      MulMono(d, q, q' - 1);
      assert false;
    }
  }

  /** Byte `i` of the encoding is `(v >> 8*i) & 0xFF`. */
  lemma {:induction false} LittleEndianByte(v: int, n: nat, i: nat)
    requires i < n
    decreases n
    ensures LittleEndian(v, n)[i] as int == (v / Pow256(i)) % 256
  {
    if i > 0 {
      LittleEndianByte(v / 256, n - 1, i - 1);
      DivDiv(v, 256, Pow256(i - 1));
    }
  }

  /** Adding 256^n does not change the n low-order bytes. */
  lemma {:induction false} LittleEndianWrap(v: int, n: nat)
    ensures LittleEndian(v + Pow256(n), n) == LittleEndian(v, n)
    decreases n
  {
    if n > 0 {
      var k := Pow256(n - 1);
      assert v + Pow256(n) == v + 256 * k;
      assert (v + 256 * k) % 256 == v % 256 && (v + 256 * k) / 256 == v / 256 + k by {
        DivUnique(v + 256 * k, 256, v / 256 + k, v % 256);
      }
      LittleEndianWrap(v / 256, n - 1);
    }
  }

  /** Decoding an encoding of a value that fits recovers it. */
  lemma {:induction false} UnsignedOfLittleEndian(v: int, n: nat)
    requires 0 <= v < Pow256(n)
    ensures Unsigned(LittleEndian(v, n)) == v
  {
    if n > 0 {
      var bs := LittleEndian(v, n);
      assert bs[1..] == LittleEndian(v / 256, n - 1);
      UnsignedOfLittleEndian(v / 256, n - 1);
    }
  }

  /** Encoding the value of a byte string gives the byte string back. */
  lemma {:induction false} LittleEndianOfUnsigned(bs: Bytes)
    ensures LittleEndian(Unsigned(bs), |bs|) == bs
  {
    if |bs| > 0 {
      var u := Unsigned(bs[1..]);
      DivUnique(Unsigned(bs), 256, u, bs[0] as int);
      LittleEndianOfUnsigned(bs[1..]);
    }
  }

  /** Round trip: the eight bytes fed to the digest determine the epoch. */
  lemma Le64RoundTrip(e: int64)
    ensures FromLe64(Le64(e)) == e
  {
    assert Pow256(8) == TwoTo64;
    if e >= 0 {
      UnsignedOfLittleEndian(e as int, 8);
    } else {
      LittleEndianWrap(e as int, 8);
      UnsignedOfLittleEndian(e as int + TwoTo64, 8);
    }
  }

  /** Round trip the other way: every 8-byte string is the encoding of the
      `long` it decodes to. */
  lemma FromLe64RoundTrip(bs: Bytes)
    requires |bs| == 8
    ensures Le64(FromLe64(bs)) == bs
  {
    assert Pow256(8) == TwoTo64;
    LittleEndianOfUnsigned(bs);
    var u := Unsigned(bs);
    if u >= TwoTo63 {
      LittleEndianWrap(u - TwoTo64, 8);
    }
  }

  /** Distinct epochs never share an encoding. */
  lemma Le64Injective(e1: int64, e2: int64)
    ensures Le64(e1) == Le64(e2) <==> e1 == e2
  {
    Le64RoundTrip(e1);
    Le64RoundTrip(e2);
  }
}
