/** Shared vocabulary of every writer in the project: bytes, the JavaScript integer
    conversions the source relies on, little-endian byte groups, bit lengths, the error
    values the source throws, and UTF-8 as produced by TextEncoder. */
module Bytes {

  type byte = x: int | 0 <= x < 256

  /** The exceptions the source throws, one constructor per distinct cause. */
  datatype Error =
    | RangeError                    // `u30` of a value >= 2^30
    | TypeError(what: string)       // a call of a function or an iteration that does not exist
    | ReferenceError(what: string)  // use of an undeclared variable
    | UnknownLabel(name: string)    // `labelByName`: 'cannot find label ' + name
    | UnresolvedFixup               // `applyFixups`: 'fixup to nonexistent label'
    | UnknownFunction(name: string) // `methodIndex`: 'Unknown function ' + name
    | UnexpectedType                // a switch over value types reached its default
    | Unsupported(what: string)     // an operator that should have been lowered upstream
    | InvalidMultinameKind          // `multiname_info` of an unknown kind

  datatype Result<T> = Ok(value: T) | Err(error: Error) {
    predicate IsFailure() { Err? }
    function PropagateFailure<U>(): Result<U> requires Err? { Err(error) }
    function Extract(): T requires Ok? { value }
  }

  datatype Option<T> = None | Some(value: T)

  /** What a state-changing method reports: the source either returns or throws. */
  datatype Outcome = Pass | Fail(error: Error)

  function Status<T>(r: Result<T>): (o: Outcome)
    ensures o.Pass? <==> r.Ok?
    ensures r.Err? ==> o == Fail(r.error)
  {
    match r
    case Ok(_) => Pass
    case Err(e) => Fail(e)
  }

  // ---------------------------------------------------------------- powers, bit lengths

  function Pow(b: nat, n: nat): (r: nat)
    ensures b > 0 ==> r > 0
  {
    if n == 0 then 1 else b * Pow(b, n - 1)
  }

  function Pow2(n: nat): (r: nat)
    ensures r > 0
  {
    Pow(2, n)
  }

  /** Number of significant bits: `32 - Math.clz32(n)` for n < 2^32. */
  function BitLength(n: nat): (r: nat)
    ensures r == 0 <==> n == 0
  {
    if n == 0 then 0 else 1 + BitLength(n / 2)
  }

  lemma {:induction false} PowAdd(b: nat, m: nat, n: nat)
    ensures Pow(b, m + n) == Pow(b, m) * Pow(b, n)
    decreases m
  {
    if m > 0 {
      PowAdd(b, m - 1, n);
      var x, y := Pow(b, m - 1), Pow(b, n);
      assert Pow(b, m + n) == b * Pow(b, m - 1 + n);
      MulAssoc(b, x, y);
    }
  }

  lemma MulAssoc(a: int, b: int, c: int)
    ensures a * (b * c) == (a * b) * c
  {
  }

  lemma {:induction false} PowMul(b: nat, m: nat, n: nat)
    ensures Pow(Pow(b, m), n) == Pow(b, m * n)
    decreases n
  {
    if n > 0 {
      PowMul(b, m, n - 1);
      calc {
        Pow(Pow(b, m), n);
        Pow(b, m) * Pow(Pow(b, m), n - 1);
        Pow(b, m) * Pow(b, m * (n - 1));
        { PowAdd(b, m, m * (n - 1)); }
        Pow(b, m + m * (n - 1));
        { assert m + m * (n - 1) == m * n; }
        Pow(b, m * n);
      }
    }
  }

  lemma {:induction false} PowMonotone(b: nat, m: nat, n: nat)
    requires b > 0 && m <= n
    ensures Pow(b, m) <= Pow(b, n)
    decreases n
  {
    if m < n {
      PowMonotone(b, m, n - 1);
      assert Pow(b, n) == b * Pow(b, n - 1);
    }
  }

  /** n lies in [2^(BitLength(n)-1), 2^BitLength(n)). */
  lemma {:induction false} BitLengthBounds(n: nat)
    ensures n < Pow2(BitLength(n))
    ensures n > 0 ==> Pow2(BitLength(n) - 1) <= n
    decreases n
  {
    if n > 0 {
      BitLengthBounds(n / 2);
      assert Pow2(BitLength(n)) == 2 * Pow2(BitLength(n / 2));
    }
  }

  /** A value below 2^k has at most k significant bits. */
  lemma {:induction false} BitLengthAtMost(n: nat, k: nat)
    requires n < Pow2(k)
    ensures BitLength(n) <= k
    decreases k
  {
    if n > 0 {
      assert k > 0;
      assert Pow2(k) == 2 * Pow2(k - 1);
      BitLengthAtMost(n / 2, k - 1);
    }
  }

  /** The powers of two the encoders use. */
  lemma Pow2Values()
    ensures Pow2(7) == 128 && Pow2(8) == 256 && Pow2(16) == 0x1_0000
    ensures Pow2(28) == 0x1000_0000 && Pow2(31) == 0x8000_0000 && Pow2(32) == TwoTo32
  {
    assert Pow2(8) == 256;
    PowAdd(2, 8, 8);
    PowAdd(2, 16, 8);
    PowAdd(2, 24, 4);
    PowAdd(2, 24, 7);
    PowAdd(2, 24, 8);
  }

  // ---------------------------------------------------------------- division facts

  lemma DivModUnique(v: int, m: int, q: int, r: int)
    requires m > 0 && v == q * m + r && 0 <= r < m
    ensures v / m == q && v % m == r
  {
    var q', r' := v / m, v % m;
    assert (q - q') * m == r' - r;
    assert (q' - q) * m == r - r';
    if q > q' {
      MulAtLeast(q - q', m);
    } else if q < q' {
      MulAtLeast(q' - q, m);
    }
  }

  lemma MulAtLeast(a: int, m: int)
    requires a >= 1 && m > 0
    ensures a * m >= m
  {
    assert a * m == (a - 1) * m + m;
    assert (a - 1) * m >= 0;
  }

  /** Splitting a remainder into a low digit and the remainder of the quotient. */
  lemma ModSplit(v: int, m: nat, p: nat)
    requires m > 0 && p > 0
    ensures v % m + m * ((v / m) % p) == v % (m * p)
    ensures (v / m) / p == v / (m * p)
  {
    var q, r := v / m, v % m;
    var a, b := q / p, q % p;
    assert v == m * q + r;
    assert q == p * a + b;
    MulSplit(m, p, a, b);
    MulBelow(m, b, p);
    assert v == (m * p) * a + (m * b + r);
    DivModUnique(v, m * p, a, m * b + r);
  }

  lemma MulSplit(m: int, p: int, a: int, b: int)
    ensures m * (p * a + b) == (m * p) * a + m * b
  {
  }

  lemma MulBelow(m: nat, b: nat, p: nat)
    requires b < p
    ensures m * b + m <= m * p
  {
    assert m * (p - b) >= m by {
      if m > 0 {
        MulAtLeast(p - b, m);
      }
    }
    assert m * (p - b) == m * p - m * b;
  }

  // ---------------------------------------------------------------- JavaScript integers

  const TwoTo32: nat := 0x1_0000_0000

  /** `v | 0`: the value's low 32 bits read as a signed integer. */
  function ToInt32(v: int): (r: int)
    ensures -0x8000_0000 <= r < 0x8000_0000
    ensures -0x8000_0000 <= v < 0x8000_0000 ==> r == v
  {
    var m := v % TwoTo32;
    if m >= 0x8000_0000 then m - TwoTo32 else m
  }

  /** `v >>> 0`: the value's low 32 bits read as an unsigned integer. */
  function ToUint32(v: int): (r: nat)
    ensures r < TwoTo32
    ensures 0 <= v < TwoTo32 ==> r == v
  {
    v % TwoTo32
  }

  function Abs(v: int): nat { if v < 0 then -v else v }

  // ---------------------------------------------------------------- little-endian groups

  /** The n bytes `(v >> 8*i) & 255`, i = 0 .. n-1. */
  function LE(v: int, n: nat): (r: seq<byte>)
    ensures |r| == n
    decreases n
  {
    if n == 0 then [] else [v % 256] + LE(v / 256, n - 1)
  }

  /** Reads bytes back as an unsigned little-endian number. */
  function LEValue(s: seq<byte>): nat
  {
    if s == [] then 0 else s[0] + 256 * LEValue(s[1..])
  }

  /** LE writes exactly the residue of v modulo 256^n. */
  lemma {:induction false} LERoundTrip(v: int, n: nat)
    ensures LEValue(LE(v, n)) == v % Pow(256, n)
    decreases n
  {
    if n > 0 {
      var s := LE(v, n);
      assert s[1..] == LE(v / 256, n - 1);
      LERoundTrip(v / 256, n - 1);
      ModSplit(v, 256, Pow(256, n - 1));
    }
  }

  /** Byte i of LE(v, n) is digit i of v in base 256. */
  lemma {:induction false} LEDigit(v: int, n: nat, i: nat)
    requires i < n
    ensures LE(v, n)[i] == (v / Pow(256, i)) % 256
    decreases i
  {
    if i > 0 {
      LEDigit(v / 256, n - 1, i - 1);
      ModSplit(v, 256, Pow(256, i - 1));
    }
  }

  function Zeros(n: nat): (r: seq<byte>)
    ensures |r| == n && forall i :: 0 <= i < n ==> r[i] == 0
  {
    seq(n, _ => 0)
  }

  /** `stream[i] = v` on a JavaScript array: writing past the end grows the array, and the
      holes read back as 0 once the array becomes a Uint8Array. */
  function SetAt(s: seq<byte>, i: nat, v: byte): (r: seq<byte>)
    ensures |r| == if i < |s| then |s| else i + 1
    ensures r[i] == v
  {
    if i < |s| then s[i := v] else s + Zeros(i - |s|) + [v]
  }

  /** Inside the array the write replaces one element; past its end, the other elements
      are kept and the new ones are 0. */
  lemma SetAtKeeps(s: seq<byte>, i: nat, v: byte, j: nat)
    requires j != i && j < |SetAt(s, i, v)|
    ensures SetAt(s, i, v)[j] == if j < |s| then s[j] else 0
  {
  }

  // ---------------------------------------------------------------- doubles

  /** The IEEE-754 bit patterns of NaN: exponent all ones, mantissa nonzero (byte 7 is
      the most significant byte of the little-endian pattern). */
  predicate IsNaNPattern(s: seq<byte>)
    requires |s| == 8
  {
    s[7] % 128 == 0x7f && s[6] >= 0xf0 && (s[6] % 16 != 0 || s[..6] != Zeros(6))
  }

  type Pattern = s: seq<byte> | |s| == 8 && !IsNaNPattern(s) witness [0, 0, 0, 0, 0, 0, 0, 0]

  /** A JavaScript number: NaN (all NaN payloads are one value to `isNaN`), or any other
      double, kept as its 8-byte little-endian IEEE-754 pattern. */
  datatype Double = NaN | Num(pattern: Pattern)

  const PositiveZero: Double := Num([0, 0, 0, 0, 0, 0, 0, 0])

  /** The pattern `Float64Array` stores for NaN produced by JavaScript arithmetic. */
  const CanonicalNaN: seq<byte> := [0, 0, 0, 0, 0, 0, 0xf8, 0x7f]

  // ---------------------------------------------------------------- text

  /** UTF-8 of one Unicode scalar value, as `TextEncoder.encode` writes it. */
  function Utf8Char(c: char): (r: seq<byte>)
    ensures 1 <= |r| <= 4
  {
    var n := c as int;
    if n < 0x80 then [n]
    else if n < 0x800 then [0xC0 + n / 0x40, 0x80 + n % 0x40]
    else if n < 0x1_0000 then [0xE0 + n / 0x1000, 0x80 + (n / 0x40) % 0x40, 0x80 + n % 0x40]
    else [0xF0 + n / 0x4_0000, 0x80 + (n / 0x1000) % 0x40, 0x80 + (n / 0x40) % 0x40, 0x80 + n % 0x40]
  }

  function Utf8(s: string): (r: seq<byte>)
    ensures |r| >= |s|
    ensures s == [] <==> r == []
  {
    if s == [] then [] else Utf8Char(s[0]) + Utf8(s[1..])
  }

  /** Code units below 0x80 are encoded as themselves, one byte each. */
  lemma {:induction false} Utf8Ascii(s: string)
    requires forall i :: 0 <= i < |s| ==> s[i] as int < 0x80
    ensures |Utf8(s)| == |s|
    ensures forall i :: 0 <= i < |s| ==> Utf8(s)[i] == s[i] as int
    decreases |s|
  {
    if s != [] {
      Utf8Ascii(s[1..]);
    }
  }

  /** Decimal digits of n, as JavaScript's `'block' + n` renders a number. */
  function NatToString(n: nat): (r: string)
    ensures |r| >= 1
    ensures forall i :: 0 <= i < |r| ==> '0' <= r[i] <= '9'
  {
    var d := (48 + n % 10) as char;
    if n < 10 then [d] else NatToString(n / 10) + [d]
  }
}
