/** The AVM2 constant pool of abc.js: the namespace and multiname entities with their
    `equals` methods (abc.js:96-269), and `CPool`, seven interning tables each of which
    keeps a sentinel at index 0 (abc.js:15-95). */
module ConstantPool {
  import opened Bytes

  /** A JavaScript value in a field that the source compares with `===`: pool indexes are
      numbers, but the translator also stores strings (`''` as a namespace kind, type names
      as QName names), and `new QName(0)` leaves its name undefined. A `Str` stands for
      non-numeric text; a numeric string is not modelled. */
  datatype JsVal = Int(i: int) | Str(s: string) | Undefined

  /** The integer a writer sees: `val & 255` and `val >>> 0` convert undefined and the
      non-numeric strings the translator stores to NaN, and NaN to 0. */
  function IntValue(v: JsVal): (r: int)
    ensures v.Int? ==> r == v.i
    ensures !v.Int? ==> r == 0
  {
    if v.Int? then v.i else 0
  }

  // ---------------------------------------------------------------- namespaces

  const NamespaceKind: int := 0x08
  const PackageNamespace: int := 0x16
  const PackageInternalNs: int := 0x17
  const ProtectedNamespace: int := 0x18
  const ExplicitNamespace: int := 0x19
  const StaticProtectedNs: int := 0x1a
  const PrivateNs: int := 0x05

  /** `NamespaceBase(kind, name)`; `new Namespace(name)` fixes the kind to 0x08. */
  datatype Namespace = Namespace(kind: JsVal, name: JsVal)

  /** `NamespaceBase.equals`: kind and name both `===`. */
  predicate NamespaceEquals(a: Namespace, b: Namespace)
  {
    a.kind == b.kind && a.name == b.name
  }

  lemma NamespaceEqualsIsIdentity(a: Namespace, b: Namespace)
    ensures NamespaceEquals(a, b) <==> a == b
  {
  }

  /** `NamespaceSet`: a list of namespace indexes. */
  datatype NamespaceSet = NamespaceSet(ns: seq<int>)

  /** `NamespaceSet.equals`: the same object, or equal lengths and `===` elementwise. */
  method NamespaceSetEquals(a: NamespaceSet, b: NamespaceSet) returns (eq: bool)
    ensures eq <==> a.ns == b.ns
  {
    if |a.ns| != |b.ns| {
      return false;
    }
    var i := 0;
    while i < |a.ns|
      invariant 0 <= i <= |a.ns|
      invariant a.ns[..i] == b.ns[..i]
    {
      if a.ns[i] != b.ns[i] {
        return false;
      }
      i := i + 1;
    }
    assert a.ns == a.ns[..i] && b.ns == b.ns[..i];
    return true;
  }

  // ---------------------------------------------------------------- multinames

  const QNameKind: int := 0x07
  const QNameAKind: int := 0x0D
  const RTQNameKind: int := 0x0F
  const RTQNameAKind: int := 0x10
  const RTQNameLKind: int := 0x11
  const RTQNameLAKind: int := 0x12
  const MultinameKind: int := 0x09
  const MultinameAKind: int := 0x0E
  const MultinameLKind: int := 0x1B
  const MultinameLAKind: int := 0x1C

  /** One constructor per multiname class of abc.js, with the fields it stores. */
  datatype Multiname =
    | QName(ns: JsVal, name: JsVal)
    | QNameA(ns: JsVal, name: JsVal)
    | RTQName(name: JsVal)
    | RTQNameA(name: JsVal)
    | RTQNameL
    | RTQNameLA
    | Multiname(name: JsVal, nsSet: JsVal)
    | MultinameA(name: JsVal, nsSet: JsVal)
    | MultinameL(nsSet: JsVal)
    | MultinameLA(nsSet: JsVal)

  /** The `kind` each constructor passes to `MultinameBase`. */
  function Kind(m: Multiname): (k: int)
    ensures k in {QNameKind, QNameAKind, RTQNameKind, RTQNameAKind, RTQNameLKind,
                  RTQNameLAKind, MultinameKind, MultinameAKind, MultinameLKind, MultinameLAKind}
    ensures QNameKind <= k <= MultinameLAKind
  {
    match m
    case QName(_, _) => QNameKind
    case QNameA(_, _) => QNameAKind
    case RTQName(_) => RTQNameKind
    case RTQNameA(_) => RTQNameAKind
    case RTQNameL => RTQNameLKind
    case RTQNameLA => RTQNameLAKind
    case Multiname(_, _) => MultinameKind
    case MultinameA(_, _) => MultinameAKind
    case MultinameL(_) => MultinameLKind
    case MultinameLA(_) => MultinameLAKind
  }

  /** The kind tells the ten multiname classes apart: two multinames have the same kind
      exactly when they were built by the same constructor. */
  lemma KindIdentifiesClass(a: Multiname, b: Multiname)
    ensures Kind(a) == Kind(b) <==>
      || (a.QName? && b.QName?) || (a.QNameA? && b.QNameA?)
      || (a.RTQName? && b.RTQName?) || (a.RTQNameA? && b.RTQNameA?)
      || (a.RTQNameL? && b.RTQNameL?) || (a.RTQNameLA? && b.RTQNameLA?)
      || (a.Multiname? && b.Multiname?) || (a.MultinameA? && b.MultinameA?)
      || (a.MultinameL? && b.MultinameL?) || (a.MultinameLA? && b.MultinameLA?)
  {
  }

  /** `a.equals(b)` for an entry a of the class a was built with: `MultinameBase.equals`
      (the same object, or the same kind) and then the fields that class compares.
      `RTQNameL` and `RTQNameLA` add nothing to the base test. */
  predicate MultinameEquals(a: Multiname, b: Multiname)
  {
    Kind(a) == Kind(b) &&
    match a
    case QName(ns, name) => ns == b.ns && name == b.name
    case QNameA(ns, name) => ns == b.ns && name == b.name
    case RTQName(name) => name == b.name
    case RTQNameA(name) => name == b.name
    case RTQNameL => true
    case RTQNameLA => true
    case Multiname(name, nss) => name == b.name && nss == b.nsSet
    case MultinameA(name, nss) => name == b.name && nss == b.nsSet
    case MultinameL(nss) => nss == b.nsSet
    case MultinameLA(nss) => nss == b.nsSet
  }

  /** Every kind belongs to exactly one class, so `equals` is equality of the values. */
  lemma MultinameEqualsIsIdentity(a: Multiname, b: Multiname)
    ensures MultinameEquals(a, b) <==> a == b
  {
  }

  /** All RTQNameL values are equal to each other, and so are all RTQNameLA values. */
  lemma LateNamesAllEqual()
    ensures MultinameEquals(RTQNameL, RTQNameL) && MultinameEquals(RTQNameLA, RTQNameLA)
    ensures !MultinameEquals(RTQNameL, RTQNameLA)
  {
  }

  // ---------------------------------------------------------------- lookups

  /** `Array.prototype.indexOf` and `findIndex` with an `equals` that is equality. */
  function IndexOf<T(==)>(s: seq<T>, x: T): (r: int)
    ensures -1 <= r < |s|
    ensures r >= 0 ==> s[r] == x && forall j :: 0 <= j < r ==> s[j] != x
    ensures r == -1 <==> x !in s
  {
    if s == [] then -1
    else if s[0] == x then 0
    else
      var r := IndexOf(s[1..], x);
      if r < 0 then -1 else r + 1
  }

  /** The first index holding x, appending x when there is none; returns the index and
      the new table. */
  function Intern<T(==)>(s: seq<T>, x: T): (r: (nat, seq<T>))
  {
    var i := IndexOf(s, x);
    if i >= 0 then (i, s) else (|s|, s + [x])
  }

  /** Interning returns a position that now holds x; a present x leaves the table as it
      was and yields its first position, an absent x is appended at the old length. */
  lemma InternFacts<T>(s: seq<T>, x: T)
    ensures Intern(s, x).0 < |Intern(s, x).1| && Intern(s, x).1[Intern(s, x).0] == x
    ensures x in s ==> Intern(s, x).1 == s &&
                       forall j :: 0 <= j < Intern(s, x).0 ==> s[j] != x
    ensures x !in s ==> Intern(s, x) == (|s|, s + [x])
  {
  }

  /** Interning the same value again changes nothing and gives the same index. */
  lemma InternIdempotent<T>(s: seq<T>, x: T)
    ensures Intern(Intern(s, x).1, x) == Intern(s, x)
  {
    var (i, t) := Intern(s, x);
    if x !in s {
      assert t[..|s|] == s;
    }
  }

  // ---------------------------------------------------------------- doubles

  predicate IsZero(d: Double)
  {
    d.Num? && d.pattern[..7] == Zeros(7) && d.pattern[7] % 128 == 0
  }

  /** `===` on numbers: NaN equals nothing, +0 and -0 are equal, all else is bitwise. */
  predicate SameNumber(a: Double, b: Double)
  {
    a.Num? && b.Num? && (a == b || (IsZero(a) && IsZero(b)))
  }

  /** `doubles.indexOf(d)`. */
  function DoubleIndexOf(s: seq<Double>, d: Double): (r: int)
    ensures -1 <= r < |s|
    ensures r >= 0 ==> SameNumber(s[r], d) && forall j :: 0 <= j < r ==> !SameNumber(s[j], d)
    ensures r == -1 ==> forall j :: 0 <= j < |s| ==> !SameNumber(s[j], d)
  {
    if s == [] then -1
    else if SameNumber(s[0], d) then 0
    else
      var r := DoubleIndexOf(s[1..], d);
      if r < 0 then -1 else r + 1
  }

  // ---------------------------------------------------------------- the pool as a value

  datatype Pool = Pool(
    integers: seq<int>,
    uintegers: seq<int>,
    doubles: seq<Double>,
    strings: seq<string>,
    namespaces: seq<Namespace>,
    nsSets: seq<NamespaceSet>,
    multinames: seq<Multiname>)

  /** The seven tables as the constructor leaves them (abc.js:16-24). */
  const InitialPool: Pool := Pool([0], [0], [NaN], [""], [Namespace(Int(NamespaceKind), Int(0))],
                                  [NamespaceSet([0])], [QName(Int(0), Undefined)])

  /** Index 0 of every table still holds its sentinel, and no entry of the integer tables
      lies outside what `| 0` and `>>> 0` can produce. */
  predicate Sentinels(p: Pool)
  {
    && |p.integers| >= 1 && p.integers[0] == 0
    && |p.uintegers| >= 1 && p.uintegers[0] == 0
    && |p.doubles| >= 1 && p.doubles[0] == NaN
    && |p.strings| >= 1 && p.strings[0] == ""
    && |p.namespaces| >= 1 && p.namespaces[0] == InitialPool.namespaces[0]
    && p.nsSets == InitialPool.nsSets
    && |p.multinames| >= 1 && p.multinames[0] == InitialPool.multinames[0]
  }

  /** `integer(val)`: `val | 0`, then the first equal entry or a new one. */
  function InternInteger(p: Pool, v: int): (r: (nat, Pool))
  {
    var (i, s) := Intern(p.integers, ToInt32(v));
    (i, p.(integers := s))
  }

  /** `uinteger(val)`: `val >>> 0`, then the first equal entry or a new one. */
  function InternUinteger(p: Pool, v: int): (r: (nat, Pool))
  {
    var (i, s) := Intern(p.uintegers, ToUint32(v));
    (i, p.(uintegers := s))
  }

  /** `double(val)`: 0 for NaN without a lookup, else the first `===` entry or a new one. */
  function InternDouble(p: Pool, d: Double): (r: (nat, Pool))
  {
    if d.NaN? then (0, p)
    else
      var i := DoubleIndexOf(p.doubles, d);
      if i >= 0 then (i, p) else (|p.doubles|, p.(doubles := p.doubles + [d]))
  }

  /** `string(str)`: 0 for the empty string without a lookup, else intern. */
  function InternString(p: Pool, s: string): (r: (nat, Pool))
  {
    if s == "" then (0, p)
    else
      var (i, t) := Intern(p.strings, s);
      (i, p.(strings := t))
  }

  /** `namespace(ns)`: `findIndex(o => o.equals(ns))`, else append. */
  function InternNamespace(p: Pool, ns: Namespace): (r: (nat, Pool))
  {
    var (i, t) := Intern(p.namespaces, ns);
    (i, p.(namespaces := t))
  }

  /** `namespaceSet(ns_set)`: the lookup as written; a set not already present reaches
      `push(multiname)` with `multiname` undeclared in that scope, a ReferenceError. */
  function InternNamespaceSet(p: Pool, nss: NamespaceSet): (r: Result<(nat, Pool)>)
  {
    var i := IndexOf(p.nsSets, nss);
    if i >= 0 then Ok((i, p)) else Err(ReferenceError("multiname"))
  }

  /** `multiname(m)`: `findIndex(o => o.equals(m))`, else append. */
  function InternMultiname(p: Pool, m: Multiname): (r: (nat, Pool))
  {
    var (i, t) := Intern(p.multinames, m);
    (i, p.(multinames := t))
  }

  // ---------------------------------------------------------------- properties

  /** Every interning keeps the sentinels and only ever appends: earlier entries of every
      table are unchanged. */
  predicate Extends(p: Pool, q: Pool)
  {
    && p.integers <= q.integers && p.uintegers <= q.uintegers && p.doubles <= q.doubles
    && p.strings <= q.strings && p.namespaces <= q.namespaces && p.nsSets <= q.nsSets
    && p.multinames <= q.multinames
  }

  lemma InitialSentinels()
    ensures Sentinels(InitialPool)
  {
  }

  lemma InternIntegerFacts(p: Pool, v: int)
    requires Sentinels(p)
    ensures Sentinels(InternInteger(p, v).1) && Extends(p, InternInteger(p, v).1)
    ensures InternInteger(p, v).1.integers[InternInteger(p, v).0] == ToInt32(v)
    ensures ToInt32(v) in p.integers ==> InternInteger(p, v).1 == p
    ensures ToInt32(v) !in p.integers ==>
      InternInteger(p, v) == (|p.integers|, p.(integers := p.integers + [ToInt32(v)]))
  {
    InternFacts(p.integers, ToInt32(v));
  }

  lemma InternUintegerFacts(p: Pool, v: int)
    requires Sentinels(p)
    ensures Sentinels(InternUinteger(p, v).1) && Extends(p, InternUinteger(p, v).1)
    ensures InternUinteger(p, v).1.uintegers[InternUinteger(p, v).0] == ToUint32(v)
    ensures ToUint32(v) in p.uintegers ==> InternUinteger(p, v).1 == p
    ensures ToUint32(v) !in p.uintegers ==>
      InternUinteger(p, v) == (|p.uintegers|, p.(uintegers := p.uintegers + [ToUint32(v)]))
  {
    InternFacts(p.uintegers, ToUint32(v));
  }

  /** NaN is never stored: it maps to the sentinel and leaves the pool as it was. Any
      other number maps to an entry `===` to it, and a new entry is never index 0. */
  lemma InternDoubleFacts(p: Pool, d: Double)
    requires Sentinels(p)
    ensures Sentinels(InternDouble(p, d).1) && Extends(p, InternDouble(p, d).1)
    ensures d.NaN? ==> InternDouble(p, d) == (0, p)
    ensures d.Num? ==> 1 <= InternDouble(p, d).0 < |InternDouble(p, d).1.doubles| &&
                       SameNumber(InternDouble(p, d).1.doubles[InternDouble(p, d).0], d)
  {
  }

  /** +0 and -0 share one entry, as `indexOf` finds either for the other. */
  lemma InternZeroes(p: Pool)
    requires Sentinels(p)
    ensures var (i, q) := InternDouble(p, PositiveZero);
            InternDouble(q, Num([0, 0, 0, 0, 0, 0, 0, 0x80])) == (i, q)
  {
    var (i, q) := InternDouble(p, PositiveZero);
    var nz := Num([0, 0, 0, 0, 0, 0, 0, 0x80]);
    assert IsZero(nz) && IsZero(PositiveZero);
    var j := DoubleIndexOf(q.doubles, nz);
    assert SameNumber(q.doubles[i], nz);
    assert j >= 0 && j <= i;
  }

  lemma InternStringFacts(p: Pool, s: string)
    requires Sentinels(p)
    ensures Sentinels(InternString(p, s).1) && Extends(p, InternString(p, s).1)
    ensures InternString(p, s).1.strings[InternString(p, s).0] == s
    ensures s == "" ==> InternString(p, s) == (0, p)
    ensures s in p.strings ==> InternString(p, s).1 == p
    ensures s !in p.strings ==>
      InternString(p, s) == (|p.strings|, p.(strings := p.strings + [s]))
  {
    InternFacts(p.strings, s);
  }

  lemma InternNamespaceFacts(p: Pool, ns: Namespace)
    requires Sentinels(p)
    ensures Sentinels(InternNamespace(p, ns).1) && Extends(p, InternNamespace(p, ns).1)
    ensures var (i, q) := InternNamespace(p, ns);
            NamespaceEquals(q.namespaces[i], ns) &&
            forall j :: 0 <= j < i ==> !NamespaceEquals(q.namespaces[j], ns)
    ensures ns in p.namespaces ==> InternNamespace(p, ns).1 == p
    ensures ns !in p.namespaces ==>
      InternNamespace(p, ns) == (|p.namespaces|, p.(namespaces := p.namespaces + [ns]))
  {
    InternFacts(p.namespaces, ns);
  }

  /** The namespace-set table never grows: the sentinel's set `[0]` maps to 0 and every
      other set is the ReferenceError. */
  lemma InternNamespaceSetFacts(p: Pool, nss: NamespaceSet)
    requires Sentinels(p)
    ensures nss.ns == [0] ==> InternNamespaceSet(p, nss) == Ok((0, p))
    ensures nss.ns != [0] ==> InternNamespaceSet(p, nss) == Err(ReferenceError("multiname"))
  {
  }

  /** `namespaceSet` as evidently intended: the set is appended when absent, as the other
      six tables do. */
  function InternNamespaceSetIntended(p: Pool, nss: NamespaceSet): (r: (nat, Pool))
  {
    var (i, t) := Intern(p.nsSets, nss);
    (i, p.(nsSets := t))
  }

  /** The intended `namespaceSet` returns an index holding the set, keeps the sentinel set
      at 0 and every earlier entry, reuses an equal set and appends a new one; wherever
      the lookup as written succeeds, it gives the same index and pool. */
  lemma InternNamespaceSetIntendedFacts(p: Pool, nss: NamespaceSet)
    requires Sentinels(p)
    ensures Extends(p, InternNamespaceSetIntended(p, nss).1)
    ensures var (i, q) := InternNamespaceSetIntended(p, nss);
            i < |q.nsSets| && q.nsSets[i] == nss && q.nsSets[0] == NamespaceSet([0])
    ensures nss in p.nsSets ==> InternNamespaceSetIntended(p, nss).1 == p
    ensures nss !in p.nsSets ==>
      InternNamespaceSetIntended(p, nss) == (|p.nsSets|, p.(nsSets := p.nsSets + [nss]))
    ensures InternNamespaceSet(p, nss).Ok? ==>
      InternNamespaceSet(p, nss).value == InternNamespaceSetIntended(p, nss)
  {
    InternFacts(p.nsSets, nss);
  }

  lemma InternMultinameFacts(p: Pool, m: Multiname)
    requires Sentinels(p)
    ensures Sentinels(InternMultiname(p, m).1) && Extends(p, InternMultiname(p, m).1)
    ensures var (i, q) := InternMultiname(p, m);
            MultinameEquals(q.multinames[i], m) &&
            forall j :: 0 <= j < i ==> !MultinameEquals(q.multinames[j], m)
    ensures m in p.multinames ==> InternMultiname(p, m).1 == p
    ensures m !in p.multinames ==>
      InternMultiname(p, m) == (|p.multinames|, p.(multinames := p.multinames + [m]))
  {
    InternFacts(p.multinames, m);
  }

  // ---------------------------------------------------------------- the class

  /** abc.js `CPool`: seven arrays that grow by `push`. */
  class CPool {
    var integers: seq<int>
    var uintegers: seq<int>
    var doubles: seq<Double>
    var strings: seq<string>
    var namespaces: seq<Namespace>
    var nsSets: seq<NamespaceSet>
    var multinames: seq<Multiname>

    function Snapshot(): Pool
      reads this
    {
      Pool(integers, uintegers, doubles, strings, namespaces, nsSets, multinames)
    }

    predicate Valid()
      reads this
    {
      Sentinels(Snapshot())
    }

    constructor()
      ensures Snapshot() == InitialPool && Valid()
    {
      integers, uintegers, doubles, strings := [0], [0], [NaN], [""];
      namespaces, nsSets, multinames := InitialPool.namespaces, InitialPool.nsSets, InitialPool.multinames;
    }

    method Integer(v: int) returns (index: nat)
      requires Valid()
      modifies this
      ensures (index, Snapshot()) == InternInteger(old(Snapshot()), v) && Valid()
    {
      InternIntegerFacts(Snapshot(), v);
      var w := ToInt32(v);
      var i := IndexOf(integers, w);
      if i >= 0 {
        return i;
      }
      integers := integers + [w];
      index := |integers| - 1;
    }

    method Uinteger(v: int) returns (index: nat)
      requires Valid()
      modifies this
      ensures (index, Snapshot()) == InternUinteger(old(Snapshot()), v) && Valid()
    {
      InternUintegerFacts(Snapshot(), v);
      var w := ToUint32(v);
      var i := IndexOf(uintegers, w);
      if i >= 0 {
        return i;
      }
      uintegers := uintegers + [w];
      index := |uintegers| - 1;
    }

    method Double(d: Double) returns (index: nat)
      requires Valid()
      modifies this
      ensures (index, Snapshot()) == InternDouble(old(Snapshot()), d) && Valid()
    {
      InternDoubleFacts(Snapshot(), d);
      if d.NaN? {
        return 0;
      }
      var i := DoubleIndexOf(doubles, d);
      if i >= 0 {
        return i;
      }
      doubles := doubles + [d];
      index := |doubles| - 1;
    }

    method String(s: string) returns (index: nat)
      requires Valid()
      modifies this
      ensures (index, Snapshot()) == InternString(old(Snapshot()), s) && Valid()
    {
      InternStringFacts(Snapshot(), s);
      if s == "" {
        return 0;
      }
      var i := IndexOf(strings, s);
      if i >= 0 {
        return i;
      }
      strings := strings + [s];
      index := |strings| - 1;
    }

    method Namespace(ns: Namespace) returns (index: nat)
      requires Valid()
      modifies this
      ensures (index, Snapshot()) == InternNamespace(old(Snapshot()), ns) && Valid()
    {
      InternNamespaceFacts(Snapshot(), ns);
      var i := IndexOf(namespaces, ns);
      if i == -1 {
        namespaces := namespaces + [ns];
        i := |namespaces| - 1;
      }
      index := i;
    }

    method NamespaceSet(nss: NamespaceSet) returns (r: Result<nat>)
      requires Valid()
      ensures InternNamespaceSet(Snapshot(), nss).Ok? <==> r.Ok?
      ensures r.Ok? ==> InternNamespaceSet(Snapshot(), nss).value.0 == r.value
      ensures r.Err? ==> r.error == ReferenceError("multiname")
    {
      var i := IndexOf(nsSets, nss);
      if i == -1 {
        return Err(ReferenceError("multiname"));
      }
      r := Ok(i);
    }

    method Multiname(m: Multiname) returns (index: nat)
      requires Valid()
      modifies this
      ensures (index, Snapshot()) == InternMultiname(old(Snapshot()), m) && Valid()
    {
      InternMultinameFacts(Snapshot(), m);
      var i := IndexOf(multinames, m);
      if i == -1 {
        multinames := multinames + [m];
        i := |multinames| - 1;
      }
      index := i;
    }
  }
}
