/** utils.js: the byte `Builder` the SWF writer extends, and `Bitstream`, which packs bit
    fields most significant bit first into bytes (the layout of SWF bit-packed records). */
module SwfUtils {
  import opened Bytes

  // ---------------------------------------------------------------- bits

  type Bit = x: int | 0 <= x < 2

  /** The bits read as an unsigned number, the first bit the most significant. */
  function Value(bs: seq<Bit>): (r: nat)
    ensures r < Pow2(|bs|)
  {
    if bs == [] then 0 else 2 * Value(bs[..|bs| - 1]) + bs[|bs| - 1]
  }

  /** The bits read as a two's complement number. */
  function Signed(bs: seq<Bit>): int
  {
    if bs == [] then 0 else Value(bs) - bs[0] * Pow2(|bs|)
  }

  function ZeroBits(n: nat): (r: seq<Bit>)
    ensures |r| == n && forall i :: 0 <= i < n ==> r[i] == 0
  {
    seq(n, _ => 0)
  }

  /** `(val >> k) & 1`: the shift count is taken modulo 32 and the shift is arithmetic on
      the value's low 32 bits. */
  function BitAt(v: int, k: nat): Bit
  {
    (ToInt32(v) / Pow2(k % 32)) % 2
  }

  /** The n bits `bits(val, n)` writes: `(val >> (n - 1 - i)) & 1` for i = 0 .. n-1. */
  function BitsOf(v: int, n: int): (r: seq<Bit>)
    ensures |r| == if n > 0 then n else 0
  {
    seq(if n > 0 then n else 0, i requires 0 <= i < n => BitAt(v, n - 1 - i))
  }

  lemma {:induction false} ValueAppend(a: seq<Bit>, b: seq<Bit>)
    ensures Value(a + b) == Value(a) * Pow2(|b|) + Value(b)
    decreases |b|
  {
    if b != [] {
      var b' := b[..|b| - 1];
      var last := b[|b| - 1];
      assert (a + b)[..|a + b| - 1] == a + b';
      assert Value(a + b) == 2 * Value(a + b') + last;
      assert Value(b) == 2 * Value(b') + last;
      ValueAppend(a, b');
      var p' := Pow2(|b'|);
      assert Pow2(|b|) == 2 * p';
      var x := Value(a);
      assert Value(a + b') == x * p' + Value(b');
      MulAssoc(2, x, p');
      MulAssoc(x, 2, p');
      assert Value(a + b) == 2 * (x * p') + Value(b);
      assert 2 * (x * p') == x * Pow2(|b|);
    } else {
      assert a + b == a;
    }
  }

  lemma {:induction false} ZeroValue(n: nat)
    ensures Value(ZeroBits(n)) == 0
  {
    if n > 0 {
      assert ZeroBits(n)[..n - 1] == ZeroBits(n - 1);
      ZeroValue(n - 1);
    }
  }

  /** The first n <= 32 bits of `bits(v, n)` hold v modulo 2^n. */
  lemma {:induction false} BitsOfValue(v: int, n: nat)
    requires n <= 32
    ensures Value(BitsOf(v, n)) == ToInt32(v) % Pow2(n)
  {
    if n > 0 {
      var m := n - 1;
      assert BitsOf(v, n) == [BitAt(v, m)] + BitsOf(v, m);
      BitsOfValue(v, m);
      ValueAppend([BitAt(v, m)], BitsOf(v, m));
      assert Value([BitAt(v, m)]) == BitAt(v, m) by {
        assert [BitAt(v, m)][..0] == [];
      }
      assert BitAt(v, m) == (ToInt32(v) / Pow2(m)) % 2;
      ModSplit(ToInt32(v), Pow2(m), 2);
      assert Pow2(m) * 2 == Pow2(n);
    }
  }

  /** An unsigned field: `ub(v, n)` writes exactly v when v fits in n bits. */
  lemma UnsignedField(v: int, n: nat)
    requires n <= 32 && 0 <= v < Pow2(n) && v < 0x8000_0000
    ensures Value(BitsOf(v, n)) == v
  {
    BitsOfValue(v, n);
    assert ToInt32(v) == v;
    DivModUnique(v, Pow2(n), 0, v);
  }

  /** Powers of two up to the sign bit of a 32-bit integer. */
  lemma Pow2AtMost31(k: nat)
    requires k <= 31
    ensures Pow2(k) <= 0x8000_0000
  {
    Pow2Values();
    PowMonotone(2, k, 31);
  }

  /** For a value that is already a 32-bit integer and a shift below 32, `(v >> k) & 1` is
      digit k of v in base 2. */
  lemma BitAtSmall(v: int, k: nat)
    requires -0x8000_0000 <= v < 0x8000_0000 && k < 32
    ensures BitAt(v, k) == (v / Pow2(k)) % 2
  {
    assert ToInt32(v) == v;
    assert k % 32 == k;
  }

  /** The top bit of an n-bit field holding v is the sign of v. */
  lemma SignBit(v: int, n: nat)
    requires 1 <= n <= 32 && 0 <= v + Pow2(n - 1) && v < Pow2(n - 1)
    ensures BitAt(v, n - 1) == if v < 0 then 1 else 0
  {
    var p := Pow2(n - 1);
    Pow2AtMost31(n - 1);
    BitAtSmall(v, n - 1);
    var q: int := if v < 0 then -1 else 0;
    assert v / p == q by {
      DivModUnique(v, p, q, v - q * p);
    }
  }

  /** The low n bits of v, read unsigned. */
  lemma LowBits(v: int, n: nat)
    requires 1 <= n <= 32 && 0 <= v + Pow2(n - 1) && v < Pow2(n - 1)
    ensures ToInt32(v) % Pow2(n) == if v < 0 then v + Pow2(n) else v
  {
    Pow2AtMost31(n - 1);
    assert ToInt32(v) == v;
    assert Pow2(n) == 2 * Pow2(n - 1);
    if v >= 0 {
      DivModUnique(v, Pow2(n), 0, v);
    } else {
      DivModUnique(v, Pow2(n), -1, v + Pow2(n));
    }
  }

  /** A signed field: `sb(v, n)` writes exactly v when v fits in n bits of two's complement. */
  lemma SignedField(v: int, n: nat)
    requires 1 <= n <= 32 && 0 <= v + Pow2(n - 1) && v < Pow2(n - 1)
    ensures Signed(BitsOf(v, n)) == v
  {
    BitsOfValue(v, n);
    LowBits(v, n);
    SignBit(v, n);
    assert BitsOf(v, n)[0] == BitAt(v, n - 1);
  }

  /** The last bit of a value read from bits, and the value of the bits before it. */
  lemma LastBit(bs: seq<Bit>)
    requires 0 < |bs| <= 31
    ensures Value(bs) < 0x8000_0000
    ensures Value(bs) / 2 == Value(bs[..|bs| - 1]) && Value(bs) % 2 == bs[|bs| - 1]
  {
    Pow2AtMost31(|bs|);
    DivModUnique(Value(bs), 2, Value(bs[..|bs| - 1]), bs[|bs| - 1]);
  }

  /** Shifting by k is halving, then shifting by k - 1. */
  lemma ShiftStep(v: int, k: nat)
    requires k > 0
    ensures v / Pow2(k) == (v / 2) / Pow2(k - 1)
  {
    ModSplit(v, 2, Pow2(k - 1));
    assert 2 * Pow2(k - 1) == Pow2(k);
  }

  /** Bit k (counted from the least significant) of a value read from at most 31 bits. */
  lemma {:induction false} BitOfValue(bs: seq<Bit>, k: nat)
    requires k < |bs| <= 31
    ensures BitAt(Value(bs), k) == bs[|bs| - 1 - k]
    decreases k
  {
    var w := bs[..|bs| - 1];
    var v := Value(bs);
    LastBit(bs);
    BitAtSmall(v, k);
    if k == 0 {
      assert Pow2(0) == 1;
      assert v / 1 == v;
      assert BitAt(v, k) == v % 2;
    } else {
      ShiftStep(v, k);
      BitAtSmall(Value(w), k - 1);
      BitOfValue(w, k - 1);
      assert BitAt(v, k) == BitAt(Value(w), k - 1);
      assert bs[|bs| - 1 - k] == w[|w| - 1 - (k - 1)];
    }
  }

  /** Reading n <= 31 bits as a number and writing it back with `bits` gives them back. */
  lemma {:induction false} BitsOfValueInverse(bs: seq<Bit>)
    requires |bs| <= 31
    ensures BitsOf(Value(bs), |bs|) == bs
  {
    var r := BitsOf(Value(bs), |bs|);
    forall i | 0 <= i < |bs|
      ensures r[i] == bs[i]
    {
      assert r[i] == BitAt(Value(bs), |bs| - 1 - i);
      BitOfValue(bs, |bs| - 1 - i);
    }
    assert r == bs;
  }

  /** `bit & 1` of a bit is the bit. */
  lemma BitIsOwnLowBit(b: Bit)
    ensures b % 2 == b
  {
  }

  // ---------------------------------------------------------------- packing

  /** The bytes a bit sequence is packed into: eight bits per byte, most significant first,
      the last byte padded with zero bits. */
  function Pack(bits: seq<Bit>): (r: seq<byte>)
    ensures |r| == (|bits| + 7) / 8
    decreases |bits|
  {
    if bits == [] then []
    else if |bits| < 8 then [ByteValue(bits + ZeroBits(8 - |bits|))]
    else [ByteValue(bits[..8])] + Pack(bits[8..])
  }

  /** Eight bits as a byte. */
  function ByteValue(bs: seq<Bit>): (r: byte)
    requires |bs| == 8
    ensures r == Value(bs)
  {
    assert Pow2(8) == 256;
    Value(bs)
  }

  /** The bits of the bytes, eight per byte, most significant first. */
  function Unpack(bytes: seq<byte>): (r: seq<Bit>)
    ensures |r| == 8 * |bytes|
  {
    if bytes == [] then [] else BitsOf(bytes[0], 8) + Unpack(bytes[1..])
  }

  /** Packing a whole number of bytes' worth of bits, then the rest. */
  lemma {:induction false} PackAppend(a: seq<Bit>, b: seq<Bit>)
    requires |a| % 8 == 0
    ensures Pack(a + b) == Pack(a) + Pack(b)
    decreases |a|
  {
    if a == [] {
      assert a + b == b;
    } else {
      assert (a + b)[..8] == a[..8];
      assert (a + b)[8..] == a[8..] + b;
      PackAppend(a[8..], b);
    }
  }

  /** Unpacking restores the bits, followed by the zero padding of the last byte. */
  lemma {:induction false} UnpackPack(bits: seq<Bit>)
    ensures Unpack(Pack(bits)) == bits + ZeroBits(|Pack(bits)| * 8 - |bits|)
    decreases |bits|
  {
    if bits == [] {
    } else if |bits| < 8 {
      var padded := bits + ZeroBits(8 - |bits|);
      BitsOfValueInverse(padded);
      assert Pack(bits)[1..] == [];
    } else {
      BitsOfValueInverse(bits[..8]);
      var rest := Pack(bits[8..]);
      assert Pack(bits)[1..] == rest;
      UnpackPack(bits[8..]);
      assert bits == bits[..8] + bits[8..];
    }
  }

  // ---------------------------------------------------------------- Builder

  /** `Builder`: a growing array of bytes. */
  class Builder {
    var stream: seq<byte>

    constructor()
      ensures stream == []
    {
      stream := [];
    }

    /** `toBytes`: the bytes written so far. */
    method ToBytes() returns (bytes: seq<byte>)
      ensures bytes == stream
    {
      bytes := stream;
    }

    /** `out`: appends the low 8 bits of the value. */
    method Out(v: int)
      modifies this
      ensures stream == old(stream) + [v % 256]
    {
      stream := stream + [v % 256];
    }

    /** `offset`: the position the next byte is written at. */
    method Offset() returns (n: nat)
      ensures n == |stream|
    {
      n := |stream|;
    }
  }

  // ---------------------------------------------------------------- Bitstream

  /** The state of a bit stream that has written the bytes `base`, then the whole bytes'
      worth of bits `done`, then the bits `pending` of an incomplete byte: `done` is packed
      in the stream, and `pending` sits at the top of the accumulator. */
  ghost predicate Holds(stream: seq<byte>, acc: int, nbits: int, base: seq<byte>, done: seq<Bit>, pending: seq<Bit>)
  {
    && 0 <= nbits < 8 && |pending| == nbits && |done| % 8 == 0
    && stream == base + Pack(done)
    && acc == Value(pending) * Pow2(8 - nbits)
  }

  /** The accumulator arithmetic of one more bit: the next position is clear, and
      setting it appends the bit to the value of the pending bits. */
  lemma AccumulateBit(t: nat, b: Bit, p: nat)
    requires p > 0
    ensures ((t * (2 * p)) / p) % 2 == 0
    ensures t * (2 * p) + b * p == (2 * t + b) * p
  {
    MulAssoc(t, 2, p);
    DivModUnique(t * (2 * p), p, 2 * t, 0);
  }

  /** A bit that does not complete a byte goes into the accumulator, at a position that
      is still clear. */
  lemma BitInByte(acc: int, nbits: nat, pending: seq<Bit>, b: Bit)
    requires nbits < 7 && |pending| == nbits && acc == Value(pending) * Pow2(8 - nbits)
    ensures (acc / Pow2(7 - nbits)) % 2 == 0
    ensures acc + b * Pow2(7 - nbits) == Value(pending + [b]) * Pow2(8 - (nbits + 1))
  {
    var p := Pow2(7 - nbits);
    assert Pow2(8 - nbits) == 2 * p;
    AccumulateBit(Value(pending), b, p);
    assert (pending + [b])[..|pending|] == pending;
    assert Value(pending + [b]) == 2 * Value(pending) + b;
  }

  /** The bit that completes a byte: the byte is the eight pending bits. */
  lemma BitCompletesByte(stream: seq<byte>, acc: int, base: seq<byte>, done: seq<Bit>, pending: seq<Bit>, b: Bit)
    requires Holds(stream, acc, 7, base, done, pending)
    ensures acc % 2 == 0 && 0 <= acc + b < 256
    ensures stream + [acc + b] == base + Pack(done + (pending + [b]))
  {
    var byteBits := pending + [b];
    assert Pow2(1) == 2;
    assert byteBits[..7] == pending;
    assert Value(byteBits) == acc + b;
    assert Pow2(8) == 256;
    assert byteBits[..8] == byteBits && byteBits[8..] == [];
    assert Pack(byteBits) == [acc + b];
    PackAppend(done, byteBits);
  }

  /** The two cases of `bit` keep the state consistent. */
  lemma BitKeeps(stream: seq<byte>, acc: int, nbits: int, base: seq<byte>, done: seq<Bit>, pending: seq<Bit>, b: Bit)
    requires Holds(stream, acc, nbits, base, done, pending)
    ensures nbits < 7 ==>
      && (acc / Pow2(7 - nbits)) % 2 == 0
      && Holds(stream, acc + b * Pow2(7 - nbits), nbits + 1, base, done, pending + [b])
    ensures nbits == 7 ==>
      && acc % 2 == 0 && 0 <= acc + b < 256
      && Holds(stream + [acc + b], 0, 0, base, done + (pending + [b]), [])
  {
    if nbits < 7 {
      BitInByte(acc, nbits, pending, b);
    } else {
      BitCompletesByte(stream, acc, base, done, pending, b);
      assert Value([]) * Pow2(8) == 0;
    }
  }

  /** Flushing an incomplete byte writes it padded with zero bits. */
  lemma FlushPads(stream: seq<byte>, acc: int, nbits: int, base: seq<byte>, done: seq<Bit>, pending: seq<Bit>)
    requires Holds(stream, acc, nbits, base, done, pending) && nbits > 0
    ensures 0 <= acc < 256 && stream + [acc] == base + Pack(done + pending)
  {
    ValueAppend(pending, ZeroBits(8 - nbits));
    ZeroValue(8 - nbits);
    assert Pack(pending) == [Value(pending + ZeroBits(8 - nbits))];
    PackAppend(done, pending);
  }

  /** `Bitstream`: a `Builder` that collects bits in `accumulator` until it holds eight.
      `base`, `done` and `pending` are the proof's view of it: the bytes written before
      the last explicit `flush`, then the bits written since, split at the last byte
      boundary. */
  class Bitstream {
    const out: Builder
    var accumulator: int
    var nbits: int
    ghost var base: seq<byte>
    ghost var done: seq<Bit>
    ghost var pending: seq<Bit>

    ghost predicate Valid()
      reads this, out
    {
      Holds(out.stream, accumulator, nbits, base, done, pending)
    }

    /** The bits written since the last explicit `flush`. */
    ghost function Run(): seq<Bit>
      reads this
    {
      done + pending
    }

    constructor()
      ensures Valid() && fresh(out) && base == [] && Run() == []
    {
      out := new Builder();
      accumulator := 0;
      nbits := 0;
      base := [];
      done := [];
      pending := [];
    }

    /** `flush`: writes the incomplete byte, if any, padded with zero bits. */
    method Flush()
      requires Valid()
      modifies this, out
      ensures Valid() && Run() == [] && base == out.stream
      ensures out.stream == old(base) + Pack(old(Run()))
    {
      if nbits > 0 {
        FlushPads(out.stream, accumulator, nbits, base, done, pending);
        out.Out(accumulator);
        nbits := 0;
        accumulator := 0;
      } else {
        assert done + pending == done;
      }
      base := out.stream;
      done := [];
      pending := [];
      assert base + Pack([]) == base;
    }

    /** `bit`: appends the low bit of the value. The `|=` sets a bit that is still clear,
        so it adds; on the eighth bit the byte is written as `flush` writes it, while the
        run goes on. */
    method Bit(v: int)
      requires Valid()
      modifies this, out
      ensures Valid() && base == old(base) && Run() == old(Run()) + [v % 2]
    {
      var b: Bit := v % 2;
      ghost var (s0, d0, p0) := (out.stream, done, pending);
      BitKeeps(s0, accumulator, nbits, base, d0, p0, b);
      if nbits < 7 {
        var acc := accumulator + b * Pow2(7 - nbits);
        ghost var p1 := p0 + [b];
        assert Holds(s0, acc, nbits + 1, base, d0, p1);
        accumulator, nbits, pending := acc, nbits + 1, p1;
      } else {
        var acc := accumulator + b;
        ghost var d1 := d0 + (p0 + [b]);
        assert Holds(s0 + [acc], 0, 0, base, d1, []);
        out.Out(acc);
        accumulator, nbits, done, pending := 0, 0, d1, [];
        assert d0 + p0 + [b] == d1 + [];
      }
    }

    /** `bits(val, n)`: the n low bits of the value, most significant first. */
    method Bits(v: int, n: int)
      requires Valid()
      modifies this, out
      ensures Valid() && base == old(base) && Run() == old(Run()) + BitsOf(v, n)
    {
      ghost var bits := BitsOf(v, n);
      var i := 0;
      while i < n
        invariant 0 <= i <= |bits|
        invariant Valid() && base == old(base)
        invariant Run() == old(Run()) + bits[..i]
      {
        ghost var before := Run();
        var bit := BitAt(v, n - 1 - i);
        BitIsOwnLowBit(bit);
        assert bits[i] == bit;
        Bit(bit);
        assert Run() == before + [bits[i]];
        assert bits[..i + 1] == bits[..i] + [bits[i]];
        i := i + 1;
      }
      assert bits[..i] == bits;
    }

    /** `ub`: an unsigned field. */
    method Ub(v: int, n: int)
      requires Valid()
      modifies this, out
      ensures Valid() && base == old(base) && Run() == old(Run()) + BitsOf(v, n)
    {
      Bits(v, n);
    }

    /** `sb`: a signed field. */
    method Sb(v: int, n: int)
      requires Valid()
      modifies this, out
      ensures Valid() && base == old(base) && Run() == old(Run()) + BitsOf(v, n)
    {
      Bits(v, n);
    }

    /** `toBytes`: flushes, then returns everything written. */
    method ToBytes() returns (bytes: seq<byte>)
      requires Valid()
      modifies this, out
      ensures bytes == old(base) + Pack(old(Run()))
    {
      Flush();
      bytes := out.ToBytes();
    }
  }
}
