/** swf.js: `SWFBuilder`, which writes the little-endian integers, strings, rectangles
    and tag records of the SWF format, and `SWFFileBuilder`, which writes an uncompressed
    SWF file around them and fills in the file length and frame count at the end. */
module Swf {
  import opened Bytes
  import opened SwfUtils

  // ---------------------------------------------------------------- integers

  /** `(v >>> 8*i) & 255`: byte i of the value's low 32 bits. */
  function ByteOf(v: int, i: nat): byte
  {
    (ToUint32(v) / Pow(256, i)) % 256
  }

  /** Taking the low 32 bits first does not change the low four bytes. */
  lemma ByteOfIsDigit(v: int, i: nat, n: nat)
    requires i < 4 && i < n
    ensures ByteOf(v, i) == LE(v, n)[i]
  {
    LEDigit(v, n, i);
    var p := Pow(256, i);
    var q := v / TwoTo32;
    var a, r := v / p, v % p;
    var k: int := if i == 0 then 0x1_0000_0000 else if i == 1 then 0x100_0000 else if i == 2 then 0x1_0000 else 0x100;
    assert p * k == TwoTo32 by {
      assert Pow(256, 0) == 1 && Pow(256, 1) == 256 && Pow(256, 2) == 0x1_0000 && Pow(256, 3) == 0x100_0000;
    }
    var u := ToUint32(v);
    assert u == v - TwoTo32 * q;
    assert u == (a - k * q) * p + r by {
      assert v == a * p + r;
      assert TwoTo32 * q == (k * q) * p;
    }
    DivModUnique(u, p, a - k * q, r);
    DivModUnique(a - k * q, 256, a / 256 - (k / 256) * q, a % 256);
  }

  function Min(a: int, b: int): int { if a < b then a else b }

  // ---------------------------------------------------------------- tags

  /** `(tag << 6)`: the code's low 32 bits shifted left by six and read as a signed 32-bit
      integer. Its low six bits are clear, so the `| Math.min(length, 63)` after it adds. */
  function ShiftedCode(code: int): int
  {
    ToInt32(code * 64)
  }

  /** The bytes `tag(code, payload)` writes: the 16-bit code-and-length field, the 32-bit
      length when the payload is 63 bytes or longer, then the payload. */
  function TagBytes(code: int, payload: seq<byte>): (r: seq<byte>)
    ensures |r| == 2 + (if |payload| >= 63 then 4 else 0) + |payload|
  {
    var coded := ShiftedCode(code) + Min(|payload|, 63);
    LE(coded, 2) + (if |payload| >= 63 then LE(|payload|, 4) else []) + payload
  }

  /** Reads one tag record: its code, its payload, and the bytes after it. */
  function ParseTag(b: seq<byte>): Option<(int, seq<byte>, seq<byte>)>
  {
    if |b| < 2 then None
    else
      var h := LEValue(b[..2]);
      var short := h % 64;
      if short < 63 then
        if |b| < 2 + short then None else Some((h / 64, b[2..2 + short], b[2 + short..]))
      else if |b| < 6 then None
      else
        var len := LEValue(b[2..6]);
        if |b| < 6 + len then None else Some((h / 64, b[6..6 + len], b[6 + len..]))
  }

  lemma Pow256Values()
    ensures Pow(256, 2) == 0x1_0000 && Pow(256, 4) == TwoTo32
  {
    assert Pow(256, 1) == 256;
    assert Pow(256, 3) == 0x100_0000;
  }

  /** A tag record reads back as the code and the payload it was written from, with the
      short form exactly when the payload is shorter than 63 bytes. */
  lemma TagRoundTrip(code: int, payload: seq<byte>, rest: seq<byte>)
    requires 0 <= code < 1024 && |payload| < TwoTo32
    ensures ParseTag(TagBytes(code, payload) + rest) == Some((code, payload, rest))
  {
    var m := Min(|payload|, 63);
    var coded := code * 64 + m;
    assert ShiftedCode(code) == code * 64;
    var b := TagBytes(code, payload) + rest;
    Pow256Values();
    assert b[..2] == LE(coded, 2);
    LERoundTrip(coded, 2);
    DivModUnique(coded, 0x1_0000, 0, coded);
    DivModUnique(coded, 64, code, m);
    if |payload| >= 63 {
      assert b[2..6] == LE(|payload|, 4);
      LERoundTrip(|payload|, 4);
      DivModUnique(|payload|, TwoTo32, 0, |payload|);
      assert b[6..6 + |payload|] == payload;
      assert b[6 + |payload|..] == rest;
    } else {
      assert b[2..2 + |payload|] == payload;
      assert b[2 + |payload|..] == rest;
    }
  }

  /** `showFrame`'s record: code 1, no payload. */
  lemma ShowFrameBytes()
    ensures TagBytes(1, []) == [0x40, 0x00]
  {
    assert ShiftedCode(1) == 64;
  }

  // ---------------------------------------------------------------- rectangles

  /** `Math.clz32`: the leading zero bits of the value's low 32 bits. */
  function Clz32(v: int): (r: nat)
    ensures r == 32 - BitLength(ToUint32(v))
  {
    Pow2Values();
    BitLengthAtMost(ToUint32(v), 32);
    32 - BitLength(ToUint32(v))
  }

  /** The field width `rect` computes: one sign bit more than the widest of the absolute
      values of x, y, x + width and y + height. */
  function FieldWidth(x: int, y: int, w: int, h: int): (n: int)
    ensures 1 <= n <= 33
    ensures forall c :: c in [x, y, x + w, y + h] ==> BitLength(ToUint32(Abs(c))) <= n - 1
  {
    1 + 32 - Min(Min(Clz32(Abs(x)), Clz32(Abs(y))), Min(Clz32(Abs(x + w)), Clz32(Abs(y + h))))
  }

  /** The bits `rect` writes: the width in five bits, then x, width, y and height in
      fields of that width. */
  function RectBits(x: int, y: int, w: int, h: int): seq<Bit>
  {
    var n := FieldWidth(x, y, w, h);
    BitsOf(n, 5) + BitsOf(x, n) + BitsOf(w, n) + BitsOf(y, n) + BitsOf(h, n)
  }

  function RectBytes(x: int, y: int, w: int, h: int): seq<byte>
  {
    Pack(RectBits(x, y, w, h))
  }

  /** The SWF RECT record as a reader sees it: the field width in five bits, then Xmin,
      Xmax, Ymin and Ymax as signed fields of that width. */
  function ParseRect(b: seq<byte>): Option<(int, int, int, int)>
  {
    ParseRectBits(Unpack(b))
  }

  function ParseRectBits(bits: seq<Bit>): Option<(int, int, int, int)>
  {
    if |bits| < 5 then None
    else
      var n := Value(bits[..5]);
      if |bits| < 5 + 4 * n then None
      else Some((Signed(bits[5..5 + n]), Signed(bits[5 + n..5 + 2 * n]),
                 Signed(bits[5 + 2 * n..5 + 3 * n]), Signed(bits[5 + 3 * n..5 + 4 * n])))
  }

  /** A coordinate whose magnitude is below 2^30 has at most 30 significant bits. */
  lemma SmallMagnitude(c: int)
    requires Abs(c) < 0x4000_0000
    ensures BitLength(ToUint32(Abs(c))) <= 30
    ensures ToUint32(Abs(c)) == Abs(c)
  {
    Pow2Values();
    assert Pow2(30) == 0x4000_0000 by {
      PowAdd(2, 28, 2);
    }
    BitLengthAtMost(Abs(c), 30);
  }

  /** A coordinate fits the signed field when its bit length is below the field width. */
  lemma FitsField(c: int, n: int)
    requires 1 <= n <= 31 && Abs(c) < 0x4000_0000 && BitLength(ToUint32(Abs(c))) <= n - 1
    ensures 0 <= c + Pow2(n - 1) && c < Pow2(n - 1)
  {
    SmallMagnitude(c);
    BitLengthBounds(Abs(c));
    PowMonotone(2, BitLength(Abs(c)), n - 1);
  }

  /** Five bit fields laid end to end, read back one by one. */
  lemma FiveFields(a: seq<Bit>, f1: seq<Bit>, f2: seq<Bit>, f3: seq<Bit>, f4: seq<Bit>, pad: seq<Bit>, n: nat)
    requires |a| == 5 && |f1| == n && |f2| == n && |f3| == n && |f4| == n
    ensures var s := a + f1 + f2 + f3 + f4 + pad;
      && |s| >= 5 + 4 * n
      && s[..5] == a && s[5..5 + n] == f1 && s[5 + n..5 + 2 * n] == f2
      && s[5 + 2 * n..5 + 3 * n] == f3 && s[5 + 3 * n..5 + 4 * n] == f4
  {
  }

  /** A record whose bits are a five-bit width n and four n-bit fields reads back as
      those fields. */
  lemma ParseRectFields(b: seq<byte>, a: seq<Bit>, f1: seq<Bit>, f2: seq<Bit>, f3: seq<Bit>, f4: seq<Bit>, pad: seq<Bit>, n: nat)
    requires |a| == 5 && Value(a) == n && |f1| == n && |f2| == n && |f3| == n && |f4| == n
    requires Unpack(b) == a + f1 + f2 + f3 + f4 + pad
    ensures ParseRect(b) == Some((Signed(f1), Signed(f2), Signed(f3), Signed(f4)))
  {
    FiveFields(a, f1, f2, f3, f4, pad, n);
    ReadFields(Unpack(b), a, f1, f2, f3, f4, n);
  }

  /** The reader's slices, once they are known to be the fields. */
  lemma ReadFields(s: seq<Bit>, a: seq<Bit>, f1: seq<Bit>, f2: seq<Bit>, f3: seq<Bit>, f4: seq<Bit>, n: nat)
    requires |a| == 5 && Value(a) == n && |s| >= 5 + 4 * n
    requires s[..5] == a && s[5..5 + n] == f1 && s[5 + n..5 + 2 * n] == f2
    requires s[5 + 2 * n..5 + 3 * n] == f3 && s[5 + 3 * n..5 + 4 * n] == f4
    ensures ParseRectBits(s) == Some((Signed(f1), Signed(f2), Signed(f3), Signed(f4)))
  {
  }

  /** Under those bounds the width `rect` computes is at most 31, it fits its five
      bits, and every field it writes holds its value. */
  lemma RectFieldsFit(x: int, y: int, w: int, h: int)
    requires Abs(x) < 0x4000_0000 && Abs(y) < 0x4000_0000 && Abs(w) < 0x4000_0000 && Abs(h) < 0x4000_0000
    requires Abs(x + w) < 0x4000_0000 && Abs(y + h) < 0x4000_0000
    requires BitLength(Abs(w)) <= BitLength(Abs(x + w)) && BitLength(Abs(h)) <= BitLength(Abs(y + h))
    ensures var n := FieldWidth(x, y, w, h);
      && n <= 31 && Value(BitsOf(n, 5)) == n
      && Signed(BitsOf(x, n)) == x && Signed(BitsOf(w, n)) == w
      && Signed(BitsOf(y, n)) == y && Signed(BitsOf(h, n)) == h
  {
    var n := FieldWidth(x, y, w, h);
    SmallMagnitude(x);
    SmallMagnitude(y);
    SmallMagnitude(x + w);
    SmallMagnitude(y + h);
    SmallMagnitude(w);
    SmallMagnitude(h);
    assert x in [x, y, x + w, y + h] && y in [x, y, x + w, y + h];
    assert x + w in [x, y, x + w, y + h] && y + h in [x, y, x + w, y + h];
    assert n <= 31;
    FitsField(x, n);
    FitsField(y, n);
    FitsField(w, n);
    FitsField(h, n);
    SignedField(x, n);
    SignedField(y, n);
    SignedField(w, n);
    SignedField(h, n);
    assert Pow2(5) == 32;
    UnsignedField(n, 5);
  }

  /** `rect` writes the field width it computed, and reading the four fields back gives
      x, width, y and height as written, provided the width and height need no more bits
      than the far edges they are measured against. */
  lemma RectReadsBack(x: int, y: int, w: int, h: int)
    requires Abs(x) < 0x4000_0000 && Abs(y) < 0x4000_0000 && Abs(w) < 0x4000_0000 && Abs(h) < 0x4000_0000
    requires Abs(x + w) < 0x4000_0000 && Abs(y + h) < 0x4000_0000
    requires BitLength(Abs(w)) <= BitLength(Abs(x + w)) && BitLength(Abs(h)) <= BitLength(Abs(y + h))
    ensures ParseRect(RectBytes(x, y, w, h)) == Some((x, w, y, h))
  {
    var n := FieldWidth(x, y, w, h);
    RectFieldsFit(x, y, w, h);
    var bits := RectBits(x, y, w, h);
    UnpackPack(bits);
    var pad := ZeroBits(|Pack(bits)| * 8 - |bits|);
    ParseRectFields(RectBytes(x, y, w, h), BitsOf(n, 5), BitsOf(x, n), BitsOf(w, n), BitsOf(y, n), BitsOf(h, n), pad, n);
  }

  /** With the origin at (0, 0), as the header writes it, the Xmax and Ymax fields are
      the width and the height: the record is the rectangle. */
  lemma RectAtOrigin(w: int, h: int)
    requires Abs(w) < 0x4000_0000 && Abs(h) < 0x4000_0000
    ensures ParseRect(RectBytes(0, 0, w, h)) == Some((0, w, 0, h))
  {
    assert 0 + w == w && 0 + h == h;
    RectReadsBack(0, 0, w, h);
  }

  /** Away from the origin the record does not describe the rectangle: (1, 0, 1, 1)
      spans x = 1 .. 2, but Xmax reads back as 1. */
  lemma RectAwayFromOrigin()
    ensures ParseRect(RectBytes(1, 0, 1, 1)) == Some((1, 1, 0, 1))
  {
    RectReadsBack(1, 0, 1, 1);
  }

  // ---------------------------------------------------------------- symbol classes

  /** `tags[name] || 0`: the character id of a symbol, 0 when it has none. */
  function SymbolId(tags: map<string, int>, name: string): int
  {
    if name in tags then tags[name] else 0
  }

  /** The entries of a SymbolClass payload: each symbol's 16-bit id and its name as a
      null-terminated UTF-8 string. */
  function SymbolEntries(symbols: seq<string>, tags: map<string, int>): seq<byte>
  {
    if symbols == [] then []
    else LE(SymbolId(tags, symbols[0]), 2) + Utf8(symbols[0]) + [0] + SymbolEntries(symbols[1..], tags)
  }

  function SymbolClassPayload(symbols: seq<string>, tags: map<string, int>): seq<byte>
  {
    LE(|symbols|, 2) + SymbolEntries(symbols, tags)
  }

  /** A null-terminated string: the bytes before the first 0, and the bytes after it. */
  function ParseCString(b: seq<byte>): Option<(seq<byte>, seq<byte>)>
  {
    if b == [] then None
    else if b[0] == 0 then Some(([], b[1..]))
    else
      var r := ParseCString(b[1..]);
      if r.None? then None else Some(([b[0]] + r.value.0, r.value.1))
  }

  /** Reads count entries: a 16-bit id and a null-terminated string each. */
  function ParseEntries(b: seq<byte>, count: nat): Option<seq<(int, seq<byte>)>>
    decreases count
  {
    if count == 0 then Some([])
    else if |b| < 2 then None
    else
      var s := ParseCString(b[2..]);
      if s.None? then None
      else
        var rest := ParseEntries(s.value.1, count - 1);
        if rest.None? then None else Some([(LEValue(b[..2]), s.value.0)] + rest.value)
  }

  function ParseSymbolClass(b: seq<byte>): Option<seq<(int, seq<byte>)>>
  {
    if |b| < 2 then None else ParseEntries(b[2..], LEValue(b[..2]))
  }

  /** What a reader of the payload should find: each symbol's id modulo 2^16 and the
      UTF-8 bytes of its name. */
  function SymbolTable(symbols: seq<string>, tags: map<string, int>): (r: seq<(int, seq<byte>)>)
    ensures |r| == |symbols|
  {
    if symbols == [] then []
    else [(SymbolId(tags, symbols[0]) % 0x1_0000, Utf8(symbols[0]))] + SymbolTable(symbols[1..], tags)
  }

  lemma {:induction false} CStringRoundTrip(s: seq<byte>, rest: seq<byte>)
    requires 0 !in s
    ensures ParseCString(s + [0] + rest) == Some((s, rest))
    decreases |s|
  {
    var b := s + [0] + rest;
    if s == [] {
      assert b[1..] == rest;
    } else {
      assert b[1..] == s[1..] + [0] + rest;
      CStringRoundTrip(s[1..], rest);
      assert [s[0]] + s[1..] == s;
    }
  }

  /** The FrameLabel payload as evidently intended: the name, its terminating 0, then
      the NamedAnchor flag byte 1 when the label is an anchor. */
  function FrameLabelPayloadIntended(name: string, anchor: bool): seq<byte>
  {
    Utf8(name) + [0] + (if anchor then [1] else [])
  }

  /** A reader of the intended payload recovers the name and the anchor flag; without
      the flag the payload is the one `frameLabel` writes as it stands. */
  lemma FrameLabelIntendedReadsBack(name: string, anchor: bool)
    requires 0 !in Utf8(name)
    ensures ParseCString(FrameLabelPayloadIntended(name, anchor))
      == Some((Utf8(name), if anchor then [1] else []))
    ensures !anchor ==> FrameLabelPayloadIntended(name, anchor) == Utf8(name) + [0]
  {
    CStringRoundTrip(Utf8(name), if anchor then [1] else []);
  }

  /** One entry read off the front: its id, its name, then the entries after it. */
  lemma EntryStep(b: seq<byte>, id: seq<byte>, name: seq<byte>, tail: seq<byte>, count: nat)
    requires |id| == 2 && 0 !in name && count > 0 && b == id + (name + [0] + tail)
    ensures ParseEntries(b, count) ==
      var r := ParseEntries(tail, count - 1);
      if r.None? then None else Some([(LEValue(id), name)] + r.value)
  {
    assert b[..2] == id && b[2..] == name + [0] + tail;
    CStringRoundTrip(name, tail);
  }

  /** The first entry of the payload, then the entries after it. */
  lemma EntriesFront(symbols: seq<string>, tags: map<string, int>, rest: seq<byte>)
    requires symbols != []
    ensures SymbolEntries(symbols, tags) + rest ==
      LE(SymbolId(tags, symbols[0]), 2) + (Utf8(symbols[0]) + [0] + (SymbolEntries(symbols[1..], tags) + rest))
  {
  }

  /** A 16-bit id reads back as the id modulo 2^16. */
  lemma IdReadsBack(v: int)
    ensures LEValue(LE(v, 2)) == v % 0x1_0000
  {
    LERoundTrip(v, 2);
    Pow256Values();
  }

  /** No name contains a null byte: the first one, and those after it. */
  lemma NoNulSplit(symbols: seq<string>)
    requires symbols != []
    requires forall k :: 0 <= k < |symbols| ==> 0 !in Utf8(symbols[k])
    ensures 0 !in Utf8(symbols[0])
    ensures forall k :: 0 <= k < |symbols[1..]| ==> 0 !in Utf8(symbols[1..][k])
  {
    assert symbols[0] == symbols[0 + 0];
    forall k | 0 <= k < |symbols[1..]|
      ensures 0 !in Utf8(symbols[1..][k])
    {
      assert symbols[1..][k] == symbols[k + 1];
    }
  }

  lemma {:induction false} EntriesRoundTrip(symbols: seq<string>, tags: map<string, int>, rest: seq<byte>)
    requires forall k :: 0 <= k < |symbols| ==> 0 !in Utf8(symbols[k])
    ensures ParseEntries(SymbolEntries(symbols, tags) + rest, |symbols|) == Some(SymbolTable(symbols, tags))
    decreases |symbols|
  {
    if symbols != [] {
      var id := LE(SymbolId(tags, symbols[0]), 2);
      var name := Utf8(symbols[0]);
      var tail := SymbolEntries(symbols[1..], tags) + rest;
      EntriesFront(symbols, tags, rest);
      NoNulSplit(symbols);
      EntryStep(SymbolEntries(symbols, tags) + rest, id, name, tail, |symbols|);
      IdReadsBack(SymbolId(tags, symbols[0]));
      EntriesRoundTrip(symbols[1..], tags, rest);
    }
  }

  /** A SymbolClass payload reads back as the symbols' ids and names, in order, when no
      name contains a null character and there are fewer than 2^16 symbols. */
  lemma SymbolClassRoundTrip(symbols: seq<string>, tags: map<string, int>)
    requires |symbols| < 0x1_0000
    requires forall k :: 0 <= k < |symbols| ==> 0 !in Utf8(symbols[k])
    ensures ParseSymbolClass(SymbolClassPayload(symbols, tags)) == Some(SymbolTable(symbols, tags))
  {
    var b := SymbolClassPayload(symbols, tags);
    Pow256Values();
    assert b[..2] == LE(|symbols|, 2);
    LERoundTrip(|symbols|, 2);
    DivModUnique(|symbols|, 0x1_0000, 0, |symbols|);
    assert b[2..] == SymbolEntries(symbols, tags) + [];
    EntriesRoundTrip(symbols, tags, []);
  }

  // ---------------------------------------------------------------- file attributes

  /** The flags byte of a FileAttributes record: three reserved bits, HasMetadata,
      ActionScript3, SuppressCrossDomainCaching, a reserved bit, UseNetwork. */
  function AttributeBits(hasMetadata: bool, actionScript3: bool, suppressCrossDomainCaching: bool, useNetwork: bool): seq<Bit>
  {
    BitsOf(0, 3) + [if hasMetadata then 1 else 0] + [if actionScript3 then 1 else 0]
      + [if suppressCrossDomainCaching then 1 else 0] + [0] + [if useNetwork then 1 else 0] + BitsOf(0, 24)
  }

  function Flag(b: bool, weight: nat): nat { if b then weight else 0 }

  /** The FileAttributes payload: the flags (0x10 metadata, 0x08 ActionScript 3, 0x04 no
      cross-domain caching, 0x01 network) and three zero bytes. */
  function AttributesPayload(hasMetadata: bool, actionScript3: bool, suppressCrossDomainCaching: bool, useNetwork: bool): seq<byte>
  {
    [Flag(hasMetadata, 0x10) + Flag(actionScript3, 0x08) + Flag(suppressCrossDomainCaching, 0x04)
     + Flag(useNetwork, 0x01), 0, 0, 0]
  }

  /** The bits `fileAttributes` writes pack into exactly that payload. */
  lemma AttributeBytes(hasMetadata: bool, actionScript3: bool, suppressCrossDomainCaching: bool, useNetwork: bool)
    ensures Pack(AttributeBits(hasMetadata, actionScript3, suppressCrossDomainCaching, useNetwork)) ==
      AttributesPayload(hasMetadata, actionScript3, suppressCrossDomainCaching, useNetwork)
  {
    var bits := AttributeBits(hasMetadata, actionScript3, suppressCrossDomainCaching, useNetwork);
    var first := bits[..8];
    BitsOfZero(24);
    assert bits == first + ZeroBits(24);
    PackAppend(first, ZeroBits(24));
    PackZeros24();
    PackOneByte(first);
    BitsOfZero(3);
    assert first[0] == 0 && first[1] == 0 && first[2] == 0 && first[6] == 0;
    ValueOfByte(first);
  }

  lemma PackOneByte(b: seq<Bit>)
    requires |b| == 8
    ensures Pack(b) == [Value(b)]
  {
    assert b[..8] == b && b[8..] == [];
  }

  lemma PackZeros24()
    ensures Pack(ZeroBits(24)) == [0, 0, 0]
  {
    assert ZeroBits(24) == ZeroBits(8) + (ZeroBits(8) + ZeroBits(8));
    PackAppend(ZeroBits(8), ZeroBits(8) + ZeroBits(8));
    PackAppend(ZeroBits(8), ZeroBits(8));
    ZeroValue(8);
    PackOneByte(ZeroBits(8));
  }

  lemma BitsOfZero(n: nat)
    ensures BitsOf(0, n) == ZeroBits(n)
  {
    forall i | 0 <= i < n
      ensures BitsOf(0, n)[i] == 0
    {
      var p := Pow2((n - 1 - i) % 32);
      assert BitsOf(0, n)[i] == BitAt(0, n - 1 - i);
      assert BitAt(0, n - 1 - i) == (ToInt32(0) / p) % 2;
      assert ToInt32(0) == 0;
      DivModUnique(0, p, 0, 0);
    }
  }

  /** The value of eight bits, bit by bit. */
  lemma ValueOfByte(b: seq<Bit>)
    requires |b| == 8
    ensures Value(b) == 128 * (b[0] as int) + 64 * (b[1] as int) + 32 * (b[2] as int) + 16 * (b[3] as int)
      + 8 * (b[4] as int) + 4 * (b[5] as int) + 2 * (b[6] as int) + b[7] as int
  {
    forall k | 1 <= k <= 8
      ensures Value(b[..k]) == 2 * Value(b[..k - 1]) + b[k - 1]
    {
      assert b[..k][..k - 1] == b[..k - 1];
    }
    assert Value(b[..0]) == 0;
    assert b[..8] == b;
  }

  // ---------------------------------------------------------------- the file

  /** `applyFixups` on a stream of bytes: the stream's length in four bytes at the length
      offset, then the frame count in two bytes at the frame count offset; a write past
      the end grows the stream. */
  function Fixed(s: seq<byte>, lengthOffset: nat, frameCountOffset: nat, frameCount: int): seq<byte>
  {
    var len := |s|;
    var s1 := SetAt(SetAt(SetAt(SetAt(s, lengthOffset, ByteOf(len, 0)), lengthOffset + 1, ByteOf(len, 1)),
                          lengthOffset + 2, ByteOf(len, 2)), lengthOffset + 3, ByteOf(len, 3));
    SetAt(SetAt(s1, frameCountOffset, ByteOf(frameCount, 0)), frameCountOffset + 1, ByteOf(frameCount, 1))
  }

  /** The bytes `header` writes: the uncompressed signature `FWS`, version 38, a zero
      file length, the frame rectangle, the frame rate and a zero frame count. */
  function HeaderBytes(width: int, height: int, rate: int): seq<byte>
  {
    [70, 87, 83, 38] + LE(0, 4) + RectBytes(0, 0, width, height) + LE(rate, 2) + LE(0, 2)
  }

  /** The four byte writes of the length fixup, inside the stream, overwrite four bytes
      with the little-endian value. */
  lemma WriteLength(s: seq<byte>, at: nat, v: int)
    requires at + 4 <= |s|
    ensures SetAt(SetAt(SetAt(SetAt(s, at, ByteOf(v, 0)), at + 1, ByteOf(v, 1)), at + 2, ByteOf(v, 2)), at + 3, ByteOf(v, 3))
      == s[..at] + LE(v, 4) + s[at + 4..]
  {
    var want := s[..at] + LE(v, 4) + s[at + 4..];
    var got := s[at := ByteOf(v, 0)][at + 1 := ByteOf(v, 1)][at + 2 := ByteOf(v, 2)][at + 3 := ByteOf(v, 3)];
    assert SetAt(SetAt(SetAt(SetAt(s, at, ByteOf(v, 0)), at + 1, ByteOf(v, 1)), at + 2, ByteOf(v, 2)), at + 3, ByteOf(v, 3)) == got;
    forall i | 0 <= i < 4
      ensures want[at + i] == ByteOf(v, i)
    {
      ByteOfIsDigit(v, i, 4);
    }
    assert got == want;
  }

  /** The two byte writes of the frame count fixup, inside the stream. */
  lemma WriteCount(s: seq<byte>, at: nat, v: int)
    requires at + 2 <= |s|
    ensures SetAt(SetAt(s, at, ByteOf(v, 0)), at + 1, ByteOf(v, 1)) == s[..at] + LE(v, 2) + s[at + 2..]
  {
    var want := s[..at] + LE(v, 2) + s[at + 2..];
    ByteOfIsDigit(v, 0, 2);
    ByteOfIsDigit(v, 1, 2);
    assert want[at] == ByteOf(v, 0) && want[at + 1] == ByteOf(v, 1);
    assert s[at := ByteOf(v, 0)][at + 1 := ByteOf(v, 1)] == want;
  }

  /** When the length field lies inside the stream, the length fixup is the field
      overwritten with the stream's length. */
  lemma FixedSplit(s: seq<byte>, lengthOffset: nat, frameCountOffset: nat, frameCount: int)
    requires lengthOffset + 4 <= |s|
    ensures Fixed(s, lengthOffset, frameCountOffset, frameCount) ==
      SetAt(SetAt(s[..lengthOffset] + LE(|s|, 4) + s[lengthOffset + 4..], frameCountOffset, ByteOf(frameCount, 0)),
            frameCountOffset + 1, ByteOf(frameCount, 1))
  {
    WriteLength(s, lengthOffset, |s|);
  }

  /** A stream with a four-byte field at offset 4 and a two-byte field after mid: the
      fixups fill the first with the stream's length and the second with the count. */
  lemma FixupsFill(s: seq<byte>, sig: seq<byte>, mid: seq<byte>, body: seq<byte>, f: nat, frameCount: int)
    requires |sig| == 4 && s == sig + LE(0, 4) + mid + LE(0, 2) + body && f == 8 + |mid|
    ensures Fixed(s, 4, f, frameCount) == sig + LE(|s|, 4) + mid + LE(frameCount, 2) + body
  {
    FixedSplit(s, 4, f, frameCount);
    Cut(sig, LE(0, 4), mid, LE(0, 2), body);
    var s1 := sig + LE(|s|, 4) + mid + LE(0, 2) + body;
    Cut(sig, LE(|s|, 4), mid, LE(0, 2), body);
    WriteCount(s1, f, frameCount);
  }

  /** Five pieces laid end to end: the prefixes and suffixes at their boundaries. */
  lemma Cut<T>(a: seq<T>, b: seq<T>, c: seq<T>, d: seq<T>, e: seq<T>)
    ensures var s := a + b + c + d + e;
      && s[..|a|] == a && s[|a| + |b|..] == c + d + e && a + b + (c + d + e) == s
      && s[..|a| + |b| + |c|] == a + b + c && s[|a| + |b| + |c| + |d|..] == e
  {
    var s := a + b + c + d + e;
    assert s[..|a| + |b| + |c|] == a + b + c;
  }

  /** With the offsets `header` records, `applyFixups` writes the file's whole length
      into the length field and the frame count into the frame count field, and changes
      nothing else. */
  lemma FixupsFillHeader(width: int, height: int, rate: int, body: seq<byte>, frameCount: int)
    ensures var hdr := HeaderBytes(width, height, rate);
      var s := hdr + body;
      Fixed(s, 4, |hdr| - 2, frameCount) ==
        [70, 87, 83, 38] + LE(|s|, 4) + RectBytes(0, 0, width, height) + LE(rate, 2) + LE(frameCount, 2) + body
  {
    var sig: seq<byte> := [70, 87, 83, 38];
    var rect := RectBytes(0, 0, width, height);
    var mid := rect + LE(rate, 2);
    var hdr := HeaderBytes(width, height, rate);
    var s := hdr + body;
    assert hdr == sig + LE(0, 4) + rect + LE(rate, 2) + LE(0, 2);
    Regroup(sig, LE(0, 4), rect, LE(rate, 2), LE(0, 2), body);
    FixupsFill(s, sig, mid, body, |hdr| - 2, frameCount);
    Regroup(sig, LE(|s|, 4), rect, LE(rate, 2), LE(frameCount, 2), body);
  }

  lemma Regroup3<T>(s: seq<T>, a: seq<T>, b: seq<T>, c: seq<T>)
    ensures s + a + b + c == s + (a + b + c)
    ensures s + a + b == s + (a + b)
  {
  }

  lemma Regroup<T>(a: seq<T>, b: seq<T>, c: seq<T>, d: seq<T>, e: seq<T>, f: seq<T>)
    ensures a + b + c + d + e + f == a + b + (c + d) + e + f
  {
  }

  /** Bytes written one at a time, each reduced modulo 256 as `out` does. */
  lemma Append4(s: seq<byte>, a: byte, b: byte, c: byte, d: byte)
    ensures s + [a % 256] + [b % 256] + [c % 256] + [d % 256] == s + [a, b, c, d]
  {
  }

  lemma Append2(s: seq<byte>, a: byte, b: byte)
    ensures s + [a % 256] + [b % 256] == s + [a, b]
  {
  }

  lemma Chain5<T>(s0: seq<T>, s1: seq<T>, s2: seq<T>, s3: seq<T>, s4: seq<T>, s5: seq<T>,
                  a: seq<T>, b: seq<T>, c: seq<T>, d: seq<T>, e: seq<T>)
    requires s1 == s0 + a && s2 == s1 + b && s3 == s2 + c && s4 == s3 + d && s5 == s4 + e
    ensures s5 == s0 + (a + b + c + d + e)
  {
  }

  /** The fields `header` writes one after the other spell the header. */
  lemma HeaderSpelled(s0: seq<byte>, s1: seq<byte>, s2: seq<byte>, s3: seq<byte>, s4: seq<byte>, s5: seq<byte>,
                      width: int, height: int, rate: int)
    requires s1 == s0 + [70, 87, 83, 38] && s2 == s1 + LE(0, 4) && s3 == s2 + RectBytes(0, 0, width, height)
    requires s4 == s3 + LE(rate, 2) && s5 == s4 + LE(0, 2)
    ensures s5 == s0 + HeaderBytes(width, height, rate)
  {
    Chain5(s0, s1, s2, s3, s4, s5, [70, 87, 83, 38], LE(0, 4), RectBytes(0, 0, width, height), LE(rate, 2), LE(0, 2));
  }

  /** `SWFBuilder`: a `Builder` with the SWF writers. */
  class SwfBuilder {
    const out: Builder

    constructor()
      ensures fresh(out) && out.stream == []
    {
      out := new Builder();
    }

    /** `toBytes`. */
    method ToBytes() returns (bytes: seq<byte>)
      ensures bytes == out.stream
    {
      bytes := out.ToBytes();
    }

    /** `ui8`: the low 8 bits. */
    method Ui8(v: int)
      modifies out
      ensures out.stream == old(out.stream) + LE(v, 1)
    {
      out.Out(ByteOf(v, 0));
      ByteOfIsDigit(v, 0, 1);
    }

    /** `ui16`: the low 16 bits, little-endian. */
    method Ui16(v: int)
      modifies out
      ensures out.stream == old(out.stream) + LE(v, 2)
    {
      ByteOfIsDigit(v, 0, 2);
      ByteOfIsDigit(v, 1, 2);
      var b0, b1 := ByteOf(v, 0), ByteOf(v, 1);
      assert LE(v, 2) == [b0, b1];
      ghost var s0 := out.stream;
      out.Out(b0);
      out.Out(b1);
      Append2(s0, b0, b1);
    }

    /** `ui32`: the low 32 bits, little-endian. */
    method Ui32(v: int)
      modifies out
      ensures out.stream == old(out.stream) + LE(v, 4)
    {
      ByteOfIsDigit(v, 0, 4);
      ByteOfIsDigit(v, 1, 4);
      ByteOfIsDigit(v, 2, 4);
      ByteOfIsDigit(v, 3, 4);
      var b0, b1, b2, b3 := ByteOf(v, 0), ByteOf(v, 1), ByteOf(v, 2), ByteOf(v, 3);
      assert LE(v, 4) == [b0, b1, b2, b3];
      ghost var s0 := out.stream;
      out.Out(b0);
      out.Out(b1);
      out.Out(b2);
      out.Out(b3);
      Append4(s0, b0, b1, b2, b3);
    }

    /** `bytes`: each byte in turn. */
    method Bytes(bs: seq<byte>)
      modifies out
      ensures out.stream == old(out.stream) + bs
    {
      var i := 0;
      while i < |bs|
        invariant 0 <= i <= |bs|
        invariant out.stream == old(out.stream) + bs[..i]
      {
        out.Out(bs[i]);
        assert bs[..i + 1] == bs[..i] + [bs[i]];
        i := i + 1;
      }
      assert bs[..i] == bs;
    }

    /** `string`: the UTF-8 bytes and a terminating zero. */
    method String(s: string)
      modifies out
      ensures out.stream == old(out.stream) + Utf8(s) + [0]
    {
      Bytes(Utf8(s));
      out.Out(0);
    }

    /** `rect`: the bit-packed rectangle, built in a separate bit stream. */
    method Rect(x: int, y: int, w: int, h: int)
      modifies out
      ensures out.stream == old(out.stream) + RectBytes(x, y, w, h)
    {
      var nbits := 1 + 32 - Min(Min(Clz32(Abs(x)), Clz32(Abs(y))), Min(Clz32(Abs(x + w)), Clz32(Abs(y + h))));
      assert nbits == FieldWidth(x, y, w, h);
      var bits := new Bitstream();
      bits.Ub(nbits, 5);
      assert [] + BitsOf(nbits, 5) == BitsOf(nbits, 5);
      ghost var r1 := bits.Run();
      bits.Sb(x, nbits);
      ghost var r2 := bits.Run();
      bits.Sb(w, nbits);
      ghost var r3 := bits.Run();
      bits.Sb(y, nbits);
      ghost var r4 := bits.Run();
      bits.Sb(h, nbits);
      assert bits.Run() == RectBits(x, y, w, h) by {
        assert r1 == BitsOf(nbits, 5);
        assert r2 == r1 + BitsOf(x, nbits);
        assert r3 == r2 + BitsOf(w, nbits);
        assert r4 == r3 + BitsOf(y, nbits);
        assert bits.Run() == r4 + BitsOf(h, nbits);
      }
      var packed := bits.ToBytes();
      assert packed == RectBytes(x, y, w, h);
      Bytes(packed);
    }

    /** `tag`: a record with its code, its length and its payload. */
    method Tag(code: int, payload: seq<byte>)
      modifies out
      ensures out.stream == old(out.stream) + TagBytes(code, payload)
    {
      var length := |payload|;
      var coded := ShiftedCode(code) + Min(length, 63);
      Ui16(coded);
      if length >= 63 {
        Ui32(length);
      }
      Bytes(payload);
    }
  }

  /** The payload `fileAttributes` writes through a fresh bit stream: three reserved bits,
      the four flags with a reserved bit between the third and the fourth, and 24 reserved
      bits. */
  method PackAttributes(hasMetadata: bool, actionScript3: bool, suppressCrossDomainCaching: bool, useNetwork: bool)
    returns (payload: seq<byte>)
    ensures payload == AttributesPayload(hasMetadata, actionScript3, suppressCrossDomainCaching, useNetwork)
  {
    var hm: Bit := if hasMetadata then 1 else 0;
    var as3: Bit := if actionScript3 then 1 else 0;
    var sup: Bit := if suppressCrossDomainCaching then 1 else 0;
    var net: Bit := if useNetwork then 1 else 0;
    ghost var bits := AttributeBits(hasMetadata, actionScript3, suppressCrossDomainCaching, useNetwork);
    var tag := new Bitstream();
    tag.Bits(0, 3);
    assert [] + BitsOf(0, 3) == BitsOf(0, 3);
    ghost var r1 := tag.Run();
    WriteFlags(tag, hm, as3, sup, net);
    ghost var r2 := tag.Run();
    tag.Bits(0, 24);
    assert tag.Run() == bits by {
      assert r1 == BitsOf(0, 3);
      assert r2 == r1 + [hm] + [as3] + [sup] + [0] + [net];
      assert tag.Run() == r2 + BitsOf(0, 24);
    }
    payload := tag.ToBytes();
    assert payload == Pack(bits) by {
      assert [] + Pack(bits) == Pack(bits);
    }
    AttributeBytes(hasMetadata, actionScript3, suppressCrossDomainCaching, useNetwork);
  }

  /** The five `bit` calls of `fileAttributes`, a reserved zero bit fourth. */
  method WriteFlags(tag: Bitstream, hm: Bit, as3: Bit, sup: Bit, net: Bit)
    requires tag.Valid()
    modifies tag, tag.out
    ensures tag.Valid() && tag.base == old(tag.base)
    ensures tag.Run() == old(tag.Run()) + [hm] + [as3] + [sup] + [0] + [net]
  {
    BitIsOwnLowBit(hm);
    BitIsOwnLowBit(as3);
    BitIsOwnLowBit(sup);
    BitIsOwnLowBit(net);
    tag.Bit(hm);
    tag.Bit(as3);
    tag.Bit(sup);
    tag.Bit(0);
    tag.Bit(net);
  }

  /** `SWFFileBuilder.kDoAbcLazyInitializeFlag`. */
  const DoAbcLazyInitializeFlag := 1

  /** `SWFFileBuilder`: a `SWFBuilder` with the positions of the two header fields that
      are filled in last, and the number of frames shown so far. */
  class SwfFileBuilder {
    const swf: SwfBuilder
    var lengthOffset: nat
    var frameCountOffset: nat
    var frameCount: int

    constructor()
      ensures fresh(swf) && fresh(swf.out) && swf.out.stream == []
      ensures lengthOffset == 0 && frameCountOffset == 0 && frameCount == 0
    {
      swf := new SwfBuilder();
      lengthOffset := 0;
      frameCountOffset := 0;
      frameCount := 0;
    }

    /** `applyFixups`. */
    method ApplyFixups()
      modifies swf.out
      ensures swf.out.stream == Fixed(old(swf.out.stream), lengthOffset, frameCountOffset, frameCount)
    {
      var len := |swf.out.stream|;
      var s := swf.out.stream;
      s := SetAt(s, lengthOffset, ByteOf(len, 0));
      s := SetAt(s, lengthOffset + 1, ByteOf(len, 1));
      s := SetAt(s, lengthOffset + 2, ByteOf(len, 2));
      s := SetAt(s, lengthOffset + 3, ByteOf(len, 3));
      s := SetAt(s, frameCountOffset, ByteOf(frameCount, 0));
      s := SetAt(s, frameCountOffset + 1, ByteOf(frameCount, 1));
      swf.out.stream := s;
    }

    /** `toBytes`: the fixups, then the bytes. */
    method ToBytes() returns (bytes: seq<byte>)
      modifies swf.out
      ensures bytes == Fixed(old(swf.out.stream), lengthOffset, frameCountOffset, frameCount)
    {
      ApplyFixups();
      bytes := swf.ToBytes();
    }

    /** `header`, given the frame rate already scaled by 256 and rounded. */
    method Header(width: int, height: int, rate: int)
      modifies this, swf.out
      ensures swf.out.stream == old(swf.out.stream) + HeaderBytes(width, height, rate)
      ensures lengthOffset == |old(swf.out.stream)| + 4
      ensures frameCountOffset == |swf.out.stream| - 2
      ensures frameCount == old(frameCount)
    {
      ghost var s0 := swf.out.stream;
      swf.out.Out(70);
      swf.out.Out(87);
      swf.out.Out(83);
      swf.out.Out(38);
      Append4(s0, 70, 87, 83, 38);
      ghost var s1 := swf.out.stream;
      lengthOffset := swf.out.Offset();
      swf.Ui32(0);
      ghost var s2 := swf.out.stream;
      swf.Rect(0, 0, width, height);
      ghost var s3 := swf.out.stream;
      swf.Ui16(rate);
      ghost var s4 := swf.out.stream;
      frameCountOffset := swf.out.Offset();
      swf.Ui16(0);
      HeaderSpelled(s0, s1, s2, s3, s4, swf.out.stream, width, height, rate);
    }

    /** `fileAttributes`: a FileAttributes record (code 69) with the four flags. */
    method FileAttributes(hasMetadata: bool, actionScript3: bool, suppressCrossDomainCaching: bool, useNetwork: bool)
      modifies swf.out
      ensures swf.out.stream == old(swf.out.stream) + TagBytes(69,
        AttributesPayload(hasMetadata, actionScript3, suppressCrossDomainCaching, useNetwork))
    {
      var payload := PackAttributes(hasMetadata, actionScript3, suppressCrossDomainCaching, useNetwork);
      swf.Tag(69, payload);
    }

    /** `frameLabel`: a FrameLabel record (code 43) with the name. The anchor flag calls
        `bit`, which a `SWFBuilder` does not have: the call throws before the record is
        written. */
    method FrameLabel(name: string, anchor: bool) returns (r: Outcome)
      modifies swf.out
      ensures anchor ==> r == Fail(TypeError("bit")) && swf.out.stream == old(swf.out.stream)
      ensures !anchor ==> r == Pass && swf.out.stream == old(swf.out.stream) + TagBytes(43, Utf8(name) + [0])
    {
      ghost var s0 := swf.out.stream;
      var tag := new SwfBuilder();
      tag.String(name);
      assert swf.out.stream == s0;
      if anchor {
        return Fail(TypeError("bit"));
      }
      var payload := tag.ToBytes();
      assert payload == Utf8(name) + [0];
      swf.Tag(43, payload);
      r := Pass;
    }

    /** `showFrame`: a ShowFrame record (code 1, no payload); one more frame. */
    method ShowFrame()
      modifies this, swf.out
      ensures swf.out.stream == old(swf.out.stream) + TagBytes(1, [])
      ensures frameCount == old(frameCount) + 1
      ensures lengthOffset == old(lengthOffset) && frameCountOffset == old(frameCountOffset)
    {
      swf.Tag(1, []);
      frameCount := frameCount + 1;
    }

    /** `doABC`: a DoABC record (code 82): the flags, the name, then the bytecode. */
    method DoAbc(name: string, bytecode: seq<byte>, flags: int)
      modifies swf.out
      ensures swf.out.stream == old(swf.out.stream) + TagBytes(82, LE(flags, 4) + Utf8(name) + [0] + bytecode)
    {
      ghost var s0 := swf.out.stream;
      var tag := new SwfBuilder();
      tag.Ui32(flags);
      tag.String(name);
      tag.Bytes(bytecode);
      assert swf.out.stream == s0;
      var payload := tag.ToBytes();
      assert payload == LE(flags, 4) + Utf8(name) + [0] + bytecode;
      swf.Tag(82, payload);
    }

    /** `symbolClass`: a SymbolClass record (code 76): the number of symbols, then each
        symbol's id and name. */
    method SymbolClass(symbols: seq<string>, tags: map<string, int>)
      modifies swf.out
      ensures swf.out.stream == old(swf.out.stream) + TagBytes(76, SymbolClassPayload(symbols, tags))
    {
      ghost var s0 := swf.out.stream;
      var tag := new SwfBuilder();
      tag.Ui16(|symbols|);
      var i := 0;
      while i < |symbols|
        invariant 0 <= i <= |symbols|
        invariant tag.out != swf.out && swf.out.stream == s0
        invariant tag.out.stream + SymbolEntries(symbols[i..], tags) == SymbolClassPayload(symbols, tags)
      {
        var name := symbols[i];
        var id := SymbolId(tags, name);
        ghost var before := tag.out.stream;
        ghost var entry := LE(id, 2) + Utf8(name) + [0];
        tag.Ui16(id);
        tag.String(name);
        Regroup3(before, LE(id, 2), Utf8(name), [0]);
        assert symbols[i..][0] == name && symbols[i..][1..] == symbols[i + 1..];
        ghost var later := SymbolEntries(symbols[i + 1..], tags);
        assert SymbolEntries(symbols[i..], tags) == entry + later;
        Regroup3(before, entry, later, []);
        i := i + 1;
      }
      assert symbols[i..] == [];
      var payload := tag.ToBytes();
      assert payload == SymbolClassPayload(symbols, tags);
      swf.Tag(76, payload);
    }
  }
}
