/** The byte stream of abc.js (class `Builder`, abc.js:352-421) with its primitive
    encoders, and the variable-length integer format of section 4.1 of the AVM2 Overview
    that `u30`, `u32` and `s32` are meant to write. */
module AbcStream {
  import opened Bytes

  /** `2 ** 30`, the first value `u30` refuses. */
  const U30Limit: nat := 0x4000_0000

  // ---------------------------------------------------------------- as the source writes

  /** The bytes written by the do-while loop shared by `u32` and `s32`: each iteration
      emits `val & 127`, sets bit 7 when `bits > 0`, then shifts `val` right by 7 and
      subtracts 7 from `bits`; the loop runs again while `bits > 0`. For a nonnegative
      divisor Dafny's `/` is floor division, so `v / 128` is both `>>> 7` of a
      nonnegative value and `>> 7` of a signed one. */
  function Groups(v: int, bits: int): (r: seq<byte>)
    ensures |r| >= 1
    decreases if bits > 0 then bits else 0
  {
    var b := v % 128 + (if bits > 0 then 128 else 0);
    [b] + (if bits - 7 > 0 then Groups(v / 128, bits - 7) else [])
  }

  /** `u32(v)`: `val >>> 0`, then `bits = 32 - Math.clz32(val)`. */
  function U32Bytes(v: int): seq<byte>
  {
    var u := ToUint32(v);
    Groups(u, BitLength(u))
  }

  /** `s32(v)`: `val | 0`, then `bits = 32 - Math.clz32(Math.abs(val)) + 1`. */
  function S32Bytes(v: int): seq<byte>
  {
    var w := ToInt32(v);
    Groups(w, BitLength(Abs(w)) + 1)
  }

  /** `u30(v)`: a RangeError for v >= 2^30, else exactly what `u32(v)` writes. */
  function U30Bytes(v: int): (r: Result<seq<byte>>)
    ensures r.Ok? <==> v < U30Limit
    ensures r.Ok? ==> r.value == U32Bytes(v)
    ensures r.Err? ==> r.error == RangeError
  {
    if v >= U30Limit then Err(RangeError) else Ok(U32Bytes(v))
  }

  /** `d64(v)`: the 8 bytes of a Float64Array holding v. */
  function D64Bytes(d: Double): (r: seq<byte>)
    ensures |r| == 8
  {
    match d
    case NaN => CanonicalNaN
    case Num(p) => p
  }

  /** The low 7 bits of each byte, read little-endian. */
  function Decode7(s: seq<byte>): nat
  {
    if s == [] then 0 else s[0] % 128 + 128 * Decode7(s[1..])
  }

  /** The value of an n-bit two's complement number x (0 <= x < 2^n). */
  function SignExtend(x: int, n: nat): int
    requires n > 0
  {
    if x >= Pow2(n - 1) then x - Pow2(n) else x
  }

  // ---------------------------------------------------------------- facts about Groups

  /** One turn of the loop: the byte it writes, then what remains to be written. */
  lemma GroupsStep(s: seq<byte>, v: int, bits: int)
    ensures s + [v % 128 + (if bits > 0 then 128 else 0)]
              + (if bits - 7 > 0 then Groups(v / 128, bits - 7) else []) == s + Groups(v, bits)
  {
  }

  lemma {:induction false} GroupsLength(v: int, bits: int)
    ensures |Groups(v, bits)| == if bits <= 0 then 1 else (bits + 6) / 7
    decreases if bits > 0 then bits else 0
  {
    if bits - 7 > 0 {
      GroupsLength(v / 128, bits - 7);
    }
  }

  /** Byte i carries digit i of v in base 128. */
  lemma {:induction false} GroupsDigit(v: int, bits: int, i: nat)
    requires i < |Groups(v, bits)|
    ensures Groups(v, bits)[i] % 128 == (v / Pow(128, i)) % 128
    decreases i
  {
    if i > 0 {
      GroupsDigit(v / 128, bits - 7, i - 1);
      ModSplit(v, 128, Pow(128, i - 1));
    }
  }

  /** Every byte has bit 7 set when the loop starts with bits > 0, and none does otherwise. */
  lemma {:induction false} GroupsFlags(v: int, bits: int)
    ensures forall i :: 0 <= i < |Groups(v, bits)| ==> (Groups(v, bits)[i] >= 128 <==> bits > 0)
    decreases if bits > 0 then bits else 0
  {
    if bits - 7 > 0 {
      GroupsFlags(v / 128, bits - 7);
    }
  }

  lemma {:induction false} GroupsDecode(v: int, bits: int)
    ensures Decode7(Groups(v, bits)) == v % Pow(128, |Groups(v, bits)|)
    decreases if bits > 0 then bits else 0
  {
    var g := Groups(v, bits);
    if bits - 7 > 0 {
      assert g[1..] == Groups(v / 128, bits - 7);
      GroupsDecode(v / 128, bits - 7);
      ModSplit(v, 128, Pow(128, |g| - 1));
    } else {
      assert g[1..] == [];
    }
  }

  /** 7 * ceil(b / 7) bits hold any value of b bits: 2^b <= 128^((b + 6) / 7). */
  lemma GroupCapacity(b: nat)
    ensures Pow2(b) <= Pow(128, (b + 6) / 7)
  {
    var k := (b + 6) / 7;
    PowMul(2, 7, k);
    assert Pow(2, 7) == 128;
    PowMonotone(2, b, 7 * k);
  }

  // ---------------------------------------------------------------- u32 and s32 as written

  lemma U32Length(v: int)
    ensures |U32Bytes(v)| == if ToUint32(v) == 0 then 1 else (BitLength(ToUint32(v)) + 6) / 7
    ensures 1 <= |U32Bytes(v)| <= 5
  {
    var u := ToUint32(v);
    GroupsLength(u, BitLength(u));
    Pow2Values();
    BitLengthAtMost(u, 32);
  }

  /** The low 7 bits of the bytes reassemble ToUint32(v), little-endian. */
  lemma U32Reassembles(v: int)
    ensures Decode7(U32Bytes(v)) == ToUint32(v)
  {
    var u := ToUint32(v);
    var g := U32Bytes(v);
    var p := Pow(128, |g|);
    GroupsDecode(u, BitLength(u));
    assert Decode7(g) == u % p;
    U32Length(v);
    BitLengthBounds(u);
    if u > 0 {
      GroupCapacity(BitLength(u));
      assert (BitLength(u) + 6) / 7 == |g|;
    }
    assert u < p;
    DivModUnique(u, p, 0, u);
  }

  /** The slip at abc.js:406: `bits > 0` is checked before `bits -= 7`, so for any nonzero
      value the final byte also carries the continuation bit. */
  lemma U32FlagsEveryByte(v: int)
    ensures ToUint32(v) == 0 ==> U32Bytes(v) == [0]
    ensures ToUint32(v) != 0 ==> forall i :: 0 <= i < |U32Bytes(v)| ==> U32Bytes(v)[i] >= 128
  {
    GroupsFlags(ToUint32(v), BitLength(ToUint32(v)));
  }

  lemma S32Length(v: int)
    ensures |S32Bytes(v)| == (BitLength(Abs(ToInt32(v))) + 7) / 7
    ensures 1 <= |S32Bytes(v)| <= 5
  {
    var w := ToInt32(v);
    GroupsLength(w, BitLength(Abs(w)) + 1);
    Pow2Values();
    BitLengthAtMost(Abs(w), 32);
  }

  /** Byte i of `s32(v)` carries the 7-bit group `(v >> 7*i) & 127`. */
  lemma S32Digits(v: int)
    ensures forall i :: 0 <= i < |S32Bytes(v)| ==>
      S32Bytes(v)[i] % 128 == (ToInt32(v) / Pow(128, i)) % 128
  {
    var w := ToInt32(v);
    forall i | 0 <= i < |S32Bytes(v)|
      ensures S32Bytes(v)[i] % 128 == (w / Pow(128, i)) % 128
    {
      GroupsDigit(w, BitLength(Abs(w)) + 1, i);
    }
  }

  /** The groups, read as one two's complement number of 7 * (byte count) bits, give back
      ToInt32(v): the group count leaves room for the sign bit. */
  lemma S32SignExtends(v: int)
    ensures SignExtend(Decode7(S32Bytes(v)), 7 * |S32Bytes(v)|) == ToInt32(v)
  {
    var w := ToInt32(v);
    var g := S32Bytes(v);
    var n := 7 * |g|;
    S32Room(v);
    var m := Pow2(n);
    if w >= 0 {
      DivModUnique(w, m, 0, w);
    } else {
      DivModUnique(w, m, -1, w + m);
    }
  }

  /** The groups of `s32(v)` hold ToInt32(v) modulo 2^(7 * byte count), with room for the
      sign bit. */
  lemma S32Room(v: int)
    ensures var n := 7 * |S32Bytes(v)|;
      && n > 0 && Decode7(S32Bytes(v)) == ToInt32(v) % Pow2(n)
      && Pow2(n) == 2 * Pow2(n - 1) && Abs(ToInt32(v)) < Pow2(n - 1)
  {
    S32Decoded(v);
    S32Bound(v);
  }

  lemma S32Decoded(v: int)
    ensures Decode7(S32Bytes(v)) == ToInt32(v) % Pow2(7 * |S32Bytes(v)|)
  {
    var w := ToInt32(v);
    var g := S32Bytes(v);
    GroupsDecode(w, BitLength(Abs(w)) + 1);
    PowMul(2, 7, |g|);
    assert Pow(2, 7) == 128;
  }

  lemma S32Bound(v: int)
    ensures var n := 7 * |S32Bytes(v)|;
      n > 0 && Pow2(n) == 2 * Pow2(n - 1) && Abs(ToInt32(v)) < Pow2(n - 1)
  {
    var w := ToInt32(v);
    var b := BitLength(Abs(w)) + 1;
    var g := S32Bytes(v);
    var n := 7 * |g|;
    GroupsLength(w, b);
    assert |g| == (b + 6) / 7;
    assert b <= n;
    BitLengthBounds(Abs(w));
    PowMonotone(2, b - 1, n - 1);
  }

  /** The same slip in `s32` (abc.js:393): `bits` starts at 1 or more, so every byte,
      including the last, carries the continuation bit, even for 0. */
  lemma S32FlagsEveryByte(v: int)
    ensures forall i :: 0 <= i < |S32Bytes(v)| ==> S32Bytes(v)[i] >= 128
  {
    GroupsFlags(ToInt32(v), BitLength(Abs(ToInt32(v))) + 1);
  }

  // ---------------------------------------------------------------- section 4.1 of the AVM2 Overview

  /** Bit 7 set on every byte but the last, clear on the last. */
  predicate WellFormedVarint(s: seq<byte>)
  {
    |s| >= 1 && (forall i :: 0 <= i < |s| - 1 ==> s[i] >= 128) && s[|s| - 1] < 128
  }

  /** A reader per section 4.1: consume bytes while bit 7 is set, at most `limit` of them;
      yields the little-endian value of the low 7 bits and the byte count. */
  function ReadVarint(s: seq<byte>, limit: nat): (r: Option<(int, nat)>)
    ensures r.Some? ==> 1 <= r.value.1 <= |s| && r.value.1 <= limit
    decreases limit
  {
    if |s| == 0 || limit == 0 then None
    else if s[0] < 128 || limit == 1 then Some((s[0] % 128, 1))
    else match ReadVarint(s[1..], limit - 1)
      case None => None
      case Some(p) => Some((s[0] % 128 + 128 * p.0, p.1 + 1))
  }

  /** A well-formed encoding is read back exactly, whatever follows it. */
  lemma {:induction false} ReadWellFormed(s: seq<byte>, rest: seq<byte>, limit: nat)
    requires WellFormedVarint(s) && |s| <= limit
    ensures ReadVarint(s + rest, limit) == Some((Decode7(s), |s|))
    decreases |s|
  {
    if |s| > 1 {
      assert (s + rest)[1..] == s[1..] + rest;
      ReadWellFormed(s[1..], rest, limit - 1);
    }
  }

  /** What the slip does to a reader: an encoding shorter than the limit whose every byte
      carries the continuation bit does not end where it should, so the reader either runs
      out of input or swallows following bytes. */
  lemma {:induction false} ReadOverruns(s: seq<byte>, rest: seq<byte>, limit: nat)
    requires |s| >= 1 && |s| < limit
    requires forall i :: 0 <= i < |s| ==> s[i] >= 128
    ensures ReadVarint(s + rest, limit).None? || ReadVarint(s + rest, limit).value.1 > |s|
    decreases |s|
  {
    if |s| > 1 {
      assert (s + rest)[1..] == s[1..] + rest;
      ReadOverruns(s[1..], rest, limit - 1);
    }
  }

  /** The bytes section 4.1 intends: the same groups, bit 7 cleared on the last byte. */
  function ClearLast(s: seq<byte>): (r: seq<byte>)
    requires |s| >= 1
    ensures |r| == |s|
  {
    s[..|s| - 1] + [s[|s| - 1] % 128]
  }

  function U32Intended(v: int): seq<byte>
  {
    ClearLast(U32Bytes(v))
  }

  function S32Intended(v: int): seq<byte>
  {
    ClearLast(S32Bytes(v))
  }

  lemma {:induction false} Decode7ClearLast(s: seq<byte>)
    requires |s| >= 1
    ensures Decode7(ClearLast(s)) == Decode7(s)
    decreases |s|
  {
    var c := ClearLast(s);
    assert Decode7(c) == c[0] % 128 + 128 * Decode7(c[1..]);
    assert Decode7(s) == s[0] % 128 + 128 * Decode7(s[1..]);
    if |s| == 1 {
      assert c[1..] == [] && s[1..] == [];
    } else {
      assert c[0] == s[0];
      assert c[1..] == ClearLast(s[1..]);
      Decode7ClearLast(s[1..]);
    }
  }

  /** The intended `u32` round-trips through a section 4.1 reader for every value. */
  lemma U32IntendedRoundTrip(v: int, rest: seq<byte>)
    ensures WellFormedVarint(U32Intended(v))
    ensures ReadVarint(U32Intended(v) + rest, 5) == Some((ToUint32(v), |U32Bytes(v)|))
  {
    U32FlagsEveryByte(v);
    U32Length(v);
    U32Reassembles(v);
    Decode7ClearLast(U32Bytes(v));
    ReadWellFormed(U32Intended(v), rest, 5);
  }

  /** The intended `s32` round-trips: reading and sign-extending gives back ToInt32(v). */
  lemma S32IntendedRoundTrip(v: int, rest: seq<byte>)
    ensures WellFormedVarint(S32Intended(v))
    ensures ReadVarint(S32Intended(v) + rest, 5) == Some((Decode7(S32Bytes(v)), |S32Bytes(v)|))
    ensures SignExtend(Decode7(S32Bytes(v)), 7 * |S32Bytes(v)|) == ToInt32(v)
  {
    S32FlagsEveryByte(v);
    S32Length(v);
    S32SignExtends(v);
    Decode7ClearLast(S32Bytes(v));
    ReadWellFormed(S32Intended(v), rest, 5);
  }

  /** As written, `u32(v)` for 0 < v < 2^28 is misread: the reader does not stop after the
      bytes `u32` wrote. */
  lemma U32AsWrittenMisread(v: int, rest: seq<byte>)
    requires 0 < ToUint32(v) < 0x1000_0000
    ensures !WellFormedVarint(U32Bytes(v))
    ensures ReadVarint(U32Bytes(v) + rest, 5).None?
         || ReadVarint(U32Bytes(v) + rest, 5).value.1 > |U32Bytes(v)|
  {
    var u := ToUint32(v);
    U32FlagsEveryByte(v);
    U32Length(v);
    Pow2Values();
    BitLengthAtMost(u, 28);
    ReadOverruns(U32Bytes(v), rest, 5);
  }

  // ---------------------------------------------------------------- the stream

  /** abc.js `Builder`: a growable byte array. */
  class Builder {
    var stream: seq<byte>

    constructor()
      ensures stream == []
    {
      stream := [];
    }

    method ToBytes() returns (bytes: seq<byte>)
      ensures bytes == stream
    {
      bytes := stream;
    }

    /** `u8`: one byte, `val & 255`. */
    method U8(v: int)
      modifies this
      ensures stream == old(stream) + [v % 256]
    {
      stream := stream + [v % 256];
    }

    /** `u16`: two little-endian bytes of the low 16 bits. */
    method U16(v: int)
      modifies this
      ensures stream == old(stream) + LE(v, 2)
    {
      stream := stream + [v % 256];
      stream := stream + [(v / 256) % 256];
    }

    /** `s24`: three little-endian bytes of the low 24 bits (two's complement). */
    method S24(v: int)
      modifies this
      ensures stream == old(stream) + LE(v, 3)
    {
      stream := stream + [v % 256];
      stream := stream + [(v / 256) % 256];
      stream := stream + [(v / 256 / 256) % 256];
    }

    /** `u32`: the do-while loop over 7-bit groups. */
    method U32(v: int)
      modifies this
      ensures stream == old(stream) + U32Bytes(v)
    {
      var val := ToUint32(v);
      var bits: int := BitLength(val);
      ghost var written := old(stream) + U32Bytes(v);
      var more := true;
      while more
        invariant stream + (if more then Groups(val, bits) else []) == written
        decreases more, bits + 7
      {
        var b := val % 128;
        if bits > 0 {
          b := b + 128;
        }
        GroupsStep(stream, val, bits);
        stream := stream + [b];
        val := val / 128;
        bits := bits - 7;
        more := bits > 0;
      }
    }

    /** `s32`: the same loop over an arithmetic shift, one extra bit for the sign. */
    method S32(v: int)
      modifies this
      ensures stream == old(stream) + S32Bytes(v)
    {
      var val := ToInt32(v);
      var bits: int := BitLength(Abs(val)) + 1;
      ghost var written := old(stream) + S32Bytes(v);
      var more := true;
      while more
        invariant stream + (if more then Groups(val, bits) else []) == written
        decreases more, bits + 7
      {
        var b := val % 128;
        if bits > 0 {
          b := b + 128;
        }
        GroupsStep(stream, val, bits);
        stream := stream + [b];
        val := val / 128;
        bits := bits - 7;
        more := bits > 0;
      }
    }

    /** `u30`: throws RangeError for v >= 2^30 before writing anything. */
    method U30(v: int) returns (r: Outcome)
      modifies this
      ensures r == Status(U30Bytes(v))
      ensures r.Pass? ==> stream == old(stream) + U32Bytes(v)
      ensures r.Fail? ==> stream == old(stream)
    {
      if v >= U30Limit {
        return Fail(RangeError);
      }
      U32(v);
      r := Pass;
    }

    /** `d64`: the 8 bytes of the double. */
    method D64(d: Double)
      modifies this
      ensures stream == old(stream) + D64Bytes(d)
    {
      var bytes := D64Bytes(d);
      var i := 0;
      while i < 8
        invariant 0 <= i <= 8
        invariant stream == old(stream) + bytes[..i]
      {
        stream := stream + [bytes[i]];
        i := i + 1;
      }
    }
  }
}
