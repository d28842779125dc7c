/** The ABC file writer of abc.js: the records `ABCFile`, `Method`, `OptionDetail`,
    `MethodBody`, `Metadata` and `Item` (abc.js:1-13, abc.js:270-350) and the
    `ABCBuilder` (abc.js:423-714), whose serialisers lay a file out as section 4 of the
    AVM2 Overview describes. Every serialiser is a function from a record to the bytes it
    appends, or to the exception it throws first; each writer method of the class appends
    exactly those bytes. */
module AbcWriter {
  import opened Bytes
  import opened AbcStream
  import opened ConstantPool
  import opened Assembler

  // ---------------------------------------------------------------- records

  const MinorVersion: int := 19
  const MajorVersion: int := 46

  const NeedArguments: int := 0x01
  const NeedActivation: int := 0x02
  const NeedRest: int := 0x04
  const HasOptional: int := 0x08
  const SetDxns: int := 0x40
  const HasParamNames: int := 0x80

  /** `flags & bit` is nonzero, for a power of two below 2^31: bit k of the two's
      complement of `flags`, which is the parity of `flags / 2^k`. */
  predicate HasFlag(flags: int, bit: nat)
    requires bit > 0
  {
    (flags / bit) % 2 == 1
  }

  const OptionInt: int := 0x03
  const OptionUInt: int := 0x04
  const OptionDouble: int := 0x06
  const OptionUtf8: int := 0x01
  const OptionTrue: int := 0x0b
  const OptionFalse: int := 0x0a
  const OptionNull: int := 0x0c
  const OptionUndefined: int := 0x00

  /** `OptionDetail(val, kind)`: a default value for an optional parameter. */
  datatype OptionDetail = OptionDetail(val: int, kind: int)

  /** A `traits_info`, `exception_info`, `class_info` or `script_info` entry: the source
      declares the tables but has no writer for their entries. */
  datatype Unwritten = Unwritten

  /** `Method`: one entry of the method-signature table. */
  datatype Method = Method(returnType: int, paramTypes: seq<int>, name: int, flags: int,
                           options: seq<OptionDetail>, paramNames: seq<int>)

  /** `MethodBody`: the code of one method and its frame sizes. */
  datatype MethodBody = MethodBody(methodIndex: int, maxStack: int, localCount: int,
                                   initScopeDepth: int, maxScopeDepth: int, code: seq<byte>,
                                   exceptions: seq<Unwritten>, traits: seq<Unwritten>)

  datatype Item = Item(key: int, value: int)

  datatype Metadata = Metadata(name: int, items: seq<Item>)

  /** The `info` object given to `new Method(info)`; a field the caller leaves out is None. */
  datatype MethodFields = MethodFields(returnType: Option<int>, paramTypes: Option<seq<int>>,
                                   name: Option<int>, flags: Option<int>,
                                   options: Option<seq<OptionDetail>>, paramNames: Option<seq<int>>)

  /** The `info` object given to `new MethodBody(info)`. */
  datatype BodyFields = BodyFields(methodIndex: Option<int>, maxStack: Option<int>, localCount: Option<int>,
                               initScopeDepth: Option<int>, maxScopeDepth: Option<int>,
                               code: Option<seq<byte>>, exceptions: Option<seq<Unwritten>>,
                               traits: Option<seq<Unwritten>>)

  /** `info.x || d` for a number: an omitted field and 0 are both falsy. */
  function OrNumber(x: Option<int>, d: int): (r: int)
    ensures x.Some? && x.value != 0 ==> r == x.value
    ensures x.None? || x.value == 0 ==> r == d
  {
    if x.Some? && x.value != 0 then x.value else d
  }

  /** `info.x || d` for an array: every array, the empty one too, is truthy. */
  function OrArray<T>(x: Option<seq<T>>, d: seq<T>): (r: seq<T>)
    ensures x.Some? ==> r == x.value
    ensures x.None? ==> r == d
  {
    if x.Some? then x.value else d
  }

  /** `new Method(info)`. */
  function NewMethod(info: MethodFields): Method
  {
    Method(OrNumber(info.returnType, 0), OrArray(info.paramTypes, []), OrNumber(info.name, 0),
           OrNumber(info.flags, 0), OrArray(info.options, []), OrArray(info.paramNames, []))
  }

  /** `new MethodBody(info)`: `max_stack` falls back to 4096, every other number to 0. */
  function NewMethodBody(info: BodyFields): MethodBody
  {
    MethodBody(OrNumber(info.methodIndex, 0), OrNumber(info.maxStack, 4096), OrNumber(info.localCount, 0),
               OrNumber(info.initScopeDepth, 0), OrNumber(info.maxScopeDepth, 0),
               OrArray(info.code, []), OrArray(info.exceptions, []), OrArray(info.traits, []))
  }

  /** A number field falls back to 0 exactly when it is left out or 0: for these fields
      the `||` default changes nothing. */
  lemma MethodFieldsAsGiven(info: MethodFields)
    ensures var m := NewMethod(info);
      && (info.returnType.Some? ==> m.returnType == info.returnType.value)
      && (info.name.Some? ==> m.name == info.name.value)
      && (info.flags.Some? ==> m.flags == info.flags.value)
      && (info.returnType.None? ==> m.returnType == 0)
      && (info.paramTypes.Some? ==> m.paramTypes == info.paramTypes.value)
      && (info.paramTypes.None? ==> m.paramTypes == [])
  {
  }

  /** `max_stack` is 4096 when it is left out, and also when 0 is passed explicitly;
      any other value is kept. */
  lemma MaxStackDefault(info: BodyFields)
    ensures info.maxStack.None? ==> NewMethodBody(info).maxStack == 4096
    ensures info.maxStack == Some(0) ==> NewMethodBody(info).maxStack == 4096
    ensures info.maxStack.Some? && info.maxStack.value != 0 ==>
      NewMethodBody(info).maxStack == info.maxStack.value
    ensures info.code.Some? ==> NewMethodBody(info).code == info.code.value
  {
  }

  /** The ABCFile record as a value: its version, pool and tables. */
  datatype FileValue = FileValue(minor: int, major: int, pool: Pool, methods: seq<Method>,
                                 metadata: seq<Metadata>, instances: seq<Unwritten>,
                                 classes: seq<Unwritten>, scripts: seq<Unwritten>,
                                 bodies: seq<MethodBody>)


  // ---------------------------------------------------------------- sequencing

  /** Bytes p already written in front of what r appends; an exception passes through. */
  function Prepend(p: seq<byte>, r: Result<seq<byte>>): (o: Result<seq<byte>>)
    ensures o.Ok? <==> r.Ok?
    ensures r.Ok? ==> o.value == p + r.value
    ensures r.Err? ==> o == r
  {
    if r.Ok? then Ok(p + r.value) else r
  }

  /** One writer call after another: the bytes of a, then those of b; an exception in a
      is thrown before b runs. */
  function Then(a: Result<seq<byte>>, b: Result<seq<byte>>): Result<seq<byte>>
  {
    if a.Err? then a else Prepend(a.value, b)
  }

  /** A `for ... of` loop calling one writer per element, from index `from` on: the
      bytes of every element in order, or the first exception thrown. */
  function Each<T>(xs: seq<T>, f: T -> Result<seq<byte>>, from: nat := 0): Result<seq<byte>>
    decreases |xs| - from
  {
    if from >= |xs| then Ok([])
    else Then(f(xs[from]), Each(xs, f, from + 1))
  }

  /** `xs.slice(1)`. */
  function Rest<T>(xs: seq<T>): (r: seq<T>)
    ensures |xs| > 0 ==> r == xs[1..]
    ensures |xs| == 0 ==> r == []
  {
    if xs == [] then [] else xs[1..]
  }

  /** `u30(xs.length)` and then one writer per element. */
  function Counted<T>(xs: seq<T>, f: T -> Result<seq<byte>>): Result<seq<byte>>
  {
    Then(U30Bytes(|xs|), Each(xs, f))
  }

  /** A constant-pool table: `u30(length)`, then the entries after the sentinel. */
  function Table<T>(xs: seq<T>, f: T -> Result<seq<byte>>): Result<seq<byte>>
  {
    Then(U30Bytes(|xs|), Each(Rest(xs), f))
  }

  /** The exception of calling a writer method the class does not define. */
  function NotAFunction(writer: string): Error
  {
    TypeError("this." + writer + " is not a function")
  }

  /** A table whose entries have no writer: `u30(length)`, and when there is an entry,
      the TypeError of calling the missing method. */
  function Missing(xs: seq<Unwritten>, writer: string): Result<seq<byte>>
  {
    Then(U30Bytes(|xs|), if xs == [] then Ok([]) else Err(NotAFunction(writer)))
  }

  // ---------------------------------------------------------------- writer steps

  /* The writer methods below keep the bytes written so far (w) and, in a ghost
     variable, the result the whole writer must produce (goal), with the invariant
     `Prepend(w, what is still to run) == goal`. These lemmas move that invariant one
     call forward. */

  lemma FirstPass(a: Result<seq<byte>>, b: Result<seq<byte>>, goal: Result<seq<byte>>)
    requires a.Ok? && Then(a, b) == goal
    ensures Prepend(a.value, b) == goal
  {
  }

  lemma ThenPass(s0: seq<byte>, w: seq<byte>, a: Result<seq<byte>>, b: Result<seq<byte>>,
                 goal: Result<seq<byte>>, s1: seq<byte>)
    requires a.Ok? && Prepend(w, Then(a, b)) == goal && s1 == (s0 + w) + a.value
    ensures s1 == s0 + (w + a.value) && Prepend(w + a.value, b) == goal
  {
    if b.Ok? {
      assert w + (a.value + b.value) == (w + a.value) + b.value;
    }
  }

  lemma ThenFail(w: seq<byte>, a: Result<seq<byte>>, b: Result<seq<byte>>, goal: Result<seq<byte>>)
    requires a.Err? && Prepend(w, Then(a, b)) == goal
    ensures goal == a
  {
  }

  lemma LastPass(s0: seq<byte>, w: seq<byte>, a: Result<seq<byte>>, goal: Result<seq<byte>>,
                 s1: seq<byte>)
    requires a.Ok? && Prepend(w, a) == goal && s1 == (s0 + w) + a.value
    ensures goal == Ok(w + a.value) && s1 == s0 + goal.value
  {
  }

  lemma PrependPass(s0: seq<byte>, p: seq<byte>, a: Result<seq<byte>>, s1: seq<byte>)
    requires a.Ok? && s1 == (s0 + p) + a.value
    ensures Prepend(p, a).Ok? && s1 == s0 + Prepend(p, a).value
  {
  }

  lemma Concat(s0: seq<byte>, a: seq<byte>, b: seq<byte>, s1: seq<byte>)
    requires s1 == (s0 + a) + b
    ensures s1 == s0 + (a + b)
  {
  }

  /** `multiname_info` writes the kind byte before the operands. */
  lemma KindThenOperands(s0: seq<byte>, m: Multiname, r: Outcome, s1: seq<byte>)
    requires r == Status(MultinameOperands(m))
    requires r.Pass? ==> s1 == (s0 + [Kind(m)]) + MultinameOperands(m).value
    ensures r == Status(MultinameBytes(m))
    ensures r.Pass? ==> s1 == s0 + MultinameBytes(m).value
  {
  }

  /** A loop that starts before anything else is written. */
  lemma LoopBegin<T>(s0: seq<byte>, xs: seq<T>, f: T -> Result<seq<byte>>, goal: Result<seq<byte>>)
    requires Each(xs, f) == goal
    ensures s0 + [] == s0 && Prepend([], Each(xs, f, 0)) == goal
  {
    if goal.Ok? {
      assert [] + goal.value == goal.value;
    }
  }

  /** One loop turn whose element writes e. */
  lemma Advance<T>(s0: seq<byte>, w: seq<byte>, xs: seq<T>, f: T -> Result<seq<byte>>, i: nat,
                   goal: Result<seq<byte>>, e: seq<byte>, s1: seq<byte>)
    requires i < |xs| && f(xs[i]) == Ok(e) && Prepend(w, Each(xs, f, i)) == goal
    requires s1 == (s0 + w) + e
    ensures s1 == s0 + (w + e) && Prepend(w + e, Each(xs, f, i + 1)) == goal
  {
    var r := Each(xs, f, i + 1);
    if r.Ok? {
      assert w + (e + r.value) == (w + e) + r.value;
    }
  }

  /** One loop turn whose element throws: the loop throws that exception. */
  lemma AdvanceFail<T>(w: seq<byte>, xs: seq<T>, f: T -> Result<seq<byte>>, i: nat,
                       goal: Result<seq<byte>>)
    requires i < |xs| && f(xs[i]).Err? && Prepend(w, Each(xs, f, i)) == goal
    ensures goal == f(xs[i])
  {
  }

  /** The loop has run over every element. */
  lemma Finish<T>(w: seq<byte>, xs: seq<T>, f: T -> Result<seq<byte>>, i: nat, goal: Result<seq<byte>>)
    requires i >= |xs| && Prepend(w, Each(xs, f, i)) == goal
    ensures goal == Ok(w)
  {
    assert w + [] == w;
  }

  // ---------------------------------------------------------------- properties of loops

  /** Writers run one after another group either way. */
  lemma ThenAssoc(a: Result<seq<byte>>, b: Result<seq<byte>>, c: Result<seq<byte>>)
    ensures Then(Then(a, b), c) == Then(a, Then(b, c))
  {
    if a.Ok? && b.Ok? && c.Ok? {
      assert (a.value + b.value) + c.value == a.value + (b.value + c.value);
    }
  }

  /** A loop over a + b that has passed a is a loop over b. */
  lemma {:induction false} EachShift<T>(a: seq<T>, b: seq<T>, f: T -> Result<seq<byte>>, j: nat)
    ensures Each(a + b, f, |a| + j) == Each(b, f, j)
    decreases |b| - j
  {
    if j < |b| {
      assert (a + b)[|a| + j] == b[j];
      EachShift(a, b, f, j + 1);
    }
  }

  /** Writing xs and then ys is writing their concatenation. */
  lemma {:induction false} EachAppend<T>(xs: seq<T>, ys: seq<T>, f: T -> Result<seq<byte>>, i: nat)
    requires i <= |xs|
    ensures Each(xs + ys, f, i) == Then(Each(xs, f, i), Each(ys, f))
    decreases |xs| - i
  {
    if i == |xs| {
      EachShift(xs, ys, f, 0);
      if Each(ys, f).Ok? {
        assert [] + Each(ys, f).value == Each(ys, f).value;
      }
    } else {
      assert (xs + ys)[i] == xs[i];
      EachAppend(xs, ys, f, i + 1);
      ThenAssoc(f(xs[i]), Each(xs, f, i + 1), Each(ys, f));
    }
  }

  /** When no element throws and each writes k bytes, the loop writes k per element. */
  lemma {:induction false} EachLength<T>(xs: seq<T>, f: T -> Result<seq<byte>>, k: nat, i: nat)
    requires i <= |xs|
    requires forall j :: i <= j < |xs| ==> f(xs[j]).Ok? && |f(xs[j]).value| == k
    ensures Each(xs, f, i).Ok? && |Each(xs, f, i).value| == k * (|xs| - i)
    decreases |xs| - i
  {
    if i < |xs| {
      EachLength(xs, f, k, i + 1);
    }
  }

  /** The loop throws exactly when some element throws, and then it throws the exception
      of the first such element. */
  lemma {:induction false} EachFails<T>(xs: seq<T>, f: T -> Result<seq<byte>>, i: nat)
    ensures Each(xs, f, i).Err? <==> exists j :: i <= j < |xs| && f(xs[j]).Err?
    ensures forall j :: i <= j < |xs| && f(xs[j]).Err? && (forall k :: i <= k < j ==> f(xs[k]).Ok?) ==>
      Each(xs, f, i) == f(xs[j])
    decreases |xs| - i
  {
    if i < |xs| {
      EachFails(xs, f, i + 1);
      forall j | i <= j < |xs| && f(xs[j]).Err? && (forall k :: i <= k < j ==> f(xs[k]).Ok?)
        ensures Each(xs, f, i) == f(xs[j])
      {
        if j > i {
          assert f(xs[i]).Ok?;
        }
      }
    }
  }

  // ---------------------------------------------------------------- entry writers

  /** `String(v)`: the text of a string, the decimal digits of a number, "undefined". */
  function JsString(v: JsVal): string
  {
    match v
    case Str(s) => s
    case Int(i) => if i < 0 then "-" + NatToString(-i) else NatToString(i)
    case Undefined => "undefined"
  }

  /** `s32(int)`, `u32(uint)` and `d64(double)` as entry writers. */
  function S32Entry(v: int): Result<seq<byte>> { Ok(S32Bytes(v)) }
  function U32Entry(v: int): Result<seq<byte>> { Ok(U32Bytes(v)) }
  function D64Entry(d: Double): Result<seq<byte>> { Ok(D64Bytes(d)) }

  /** `u30` of a field that may hold a non-numeric string or be undefined: both compare
      false with 2^30 and convert to 0 under `>>> 0`. */
  function U30Value(v: JsVal): (r: Result<seq<byte>>)
    ensures !v.Int? ==> r == Ok(U32Bytes(0))
    ensures v.Int? ==> r == U30Bytes(v.i)
  {
    U30Bytes(IntValue(v))
  }

  /** Two `u30` calls in a row. */
  function PairBytes(a: int, b: int): Result<seq<byte>>
  {
    Then(U30Bytes(a), U30Bytes(b))
  }

  /** `string_info`: the UTF-8 length as `u30`, then the UTF-8 bytes. */
  function StringBytes(s: string): Result<seq<byte>>
  {
    Then(U30Bytes(|Utf8(s)|), Ok(Utf8(s)))
  }

  /** `namespace_info`: the kind byte, then the name's string index. */
  function NamespaceBytes(ns: Namespace): Result<seq<byte>>
  {
    Prepend([IntValue(ns.kind) % 256], U30Value(ns.name))
  }

  /** `ns_set_info` as written: it is handed a `NamespaceSet` object, whose `length` is
      undefined (`u30` writes 0) and which is not iterable. */
  function NsSetBytes(nss: NamespaceSet): Result<seq<byte>>
  {
    Err(TypeError("ns_set is not iterable"))
  }

  /** What `ns_set_info` was meant to write: the count, then each namespace index. */
  function NsSetIntendedBytes(nss: NamespaceSet): Result<seq<byte>>
  {
    Counted(nss.ns, U30Bytes)
  }

  /** The operands `multiname_info` writes after the kind byte, as written: the QName
      branch writes the kind a second time where the namespace index belongs. */
  function MultinameOperands(m: Multiname): Result<seq<byte>>
  {
    match m
    case QName(_, name) => PairBytes(Kind(m), IntValue(name))
    case QNameA(_, name) => PairBytes(Kind(m), IntValue(name))
    case RTQName(name) => U30Value(name)
    case RTQNameA(name) => U30Value(name)
    case RTQNameL => Ok([])
    case RTQNameLA => Ok([])
    case Multiname(name, nss) => PairBytes(IntValue(name), IntValue(nss))
    case MultinameA(name, nss) => PairBytes(IntValue(name), IntValue(nss))
    case MultinameL(nss) => U30Value(nss)
    case MultinameLA(nss) => U30Value(nss)
  }

  /** `multiname_info`: the kind byte, then the operands of that kind. */
  function MultinameBytes(m: Multiname): Result<seq<byte>>
  {
    Prepend([Kind(m)], MultinameOperands(m))
  }

  /** The QName layout of section 4.4.1 of the AVM2 Overview: namespace index, then name. */
  function MultinameIntendedBytes(m: Multiname): Result<seq<byte>>
  {
    match m
    case QName(ns, name) => Prepend([Kind(m)], PairBytes(IntValue(ns), IntValue(name)))
    case QNameA(ns, name) => Prepend([Kind(m)], PairBytes(IntValue(ns), IntValue(name)))
    case _ => MultinameBytes(m)
  }

  /** `option_detail`: the value index, then the kind byte. */
  function OptionDetailBytes(o: OptionDetail): Result<seq<byte>>
  {
    Then(U30Bytes(o.val), Ok([o.kind % 256]))
  }

  /** `option_info`: the count, then each option. */
  function OptionBytes(options: seq<OptionDetail>): Result<seq<byte>>
  {
    Counted(options, OptionDetailBytes)
  }

  /** `param_info`: one `u30` per value, with no count in front (`method_info` writes the
      parameter types the same way). */
  function ParamBytes(vs: seq<int>): Result<seq<byte>>
  {
    Each(vs, U30Bytes)
  }

  /** The option list of `method_info`, written only under HAS_OPTIONAL. */
  function OptionalPart(m: Method): Result<seq<byte>>
  {
    if HasFlag(m.flags, HasOptional) then OptionBytes(m.options) else Ok([])
  }

  /** The parameter names of `method_info`, written only under HAS_PARAM_NAMES. */
  function ParamNamesPart(m: Method): Result<seq<byte>>
  {
    if HasFlag(m.flags, HasParamNames) then ParamBytes(m.paramNames) else Ok([])
  }

  /** The part of `method_info` every method has: the parameter count, the return
      type, each parameter type, the name and the flags byte. */
  function SignatureBytes(m: Method): Result<seq<byte>>
  {
    Then(U30Bytes(|m.paramTypes|),
    Then(U30Bytes(m.returnType),
    Then(ParamBytes(m.paramTypes),
    Then(U30Bytes(m.name), Ok([m.flags % 256])))))
  }

  /** `method_info`: the signature, then the flag-dependent lists. */
  function MethodInfoBytes(m: Method): Result<seq<byte>>
  {
    Then(SignatureBytes(m), Then(OptionalPart(m), ParamNamesPart(m)))
  }

  /** `method_body_info`: five frame fields and the code length as `u30`, the code bytes
      verbatim, then the exception and trait tables, whose entries have no writer. */
  function MethodBodyBytes(b: MethodBody): Result<seq<byte>>
  {
    Then(U30Bytes(b.methodIndex),
    Then(U30Bytes(b.maxStack),
    Then(U30Bytes(b.localCount),
    Then(U30Bytes(b.initScopeDepth),
    Then(U30Bytes(b.maxScopeDepth),
    Then(U30Bytes(|b.code|),
    Then(Ok(b.code),
    Then(Missing(b.exceptions, "exception_info"), Missing(b.traits, "traits_info")))))))))
  }

  /** `item_info`: key index, then value index. */
  function ItemBytes(it: Item): Result<seq<byte>>
  {
    PairBytes(it.key, it.value)
  }

  /** `metadata_info`: the name index, then the counted items. */
  function MetadataBytes(md: Metadata): Result<seq<byte>>
  {
    Then(U30Bytes(md.name), Counted(md.items, ItemBytes))
  }

  /** `cpool_info`: the seven tables in the order of section 4.3 of the AVM2 Overview. */
  function CpoolBytes(p: Pool): Result<seq<byte>>
  {
    Then(Table(p.integers, S32Entry),
    Then(Table(p.uintegers, U32Entry),
    Then(Table(p.doubles, D64Entry),
    Then(Table(p.strings, StringBytes),
    Then(Table(p.namespaces, NamespaceBytes),
    Then(Table(p.nsSets, NsSetBytes), Table(p.multinames, MultinameBytes)))))))
  }

  /** The tables of `abcFile` after the constant pool, in file order. The class tables
      are counted by `classes`; `instance_info` writes nothing and `class_info` does not
      exist. */
  function TablesBytes(f: FileValue): Result<seq<byte>>
  {
    Then(Counted(f.methods, MethodInfoBytes),
    Then(Counted(f.metadata, MetadataBytes),
    Then(Missing(f.classes, "class_info"),
    Then(Missing(f.scripts, "script_info"), Counted(f.bodies, MethodBodyBytes)))))
  }

  /** `abcFile`: the two version numbers as `u16`, the constant pool, then the tables. */
  function AbcFileBytes(f: FileValue): Result<seq<byte>>
  {
    Then(Ok(LE(f.minor, 2) + LE(f.major, 2)), Then(CpoolBytes(f.pool), TablesBytes(f)))
  }

  // ---------------------------------------------------------------- properties of the layout

  /** A `u30` below 128 is one byte: 0 as itself, any other value with bit 7 set (the
      continuation-bit slip of `u32`). */
  lemma U30Small(v: int)
    requires 0 <= v < 128
    ensures U30Bytes(v) == Ok(if v == 0 then [0] else [128 + v])
  {
    Pow2Values();
    assert ToUint32(v) == v;
    if v > 0 {
      BitLengthAtMost(v, 7);
      var b := BitLength(v);
      assert 0 < b <= 7;
      assert Groups(v, b) == [v % 128 + 128];
    } else {
      assert Groups(0, 0) == [0];
    }
  }

  /** A table with one entry writes only its length: the sentinel is never encoded. */
  lemma SentinelOnly<T>(xs: seq<T>, f: T -> Result<seq<byte>>)
    requires |xs| == 1
    ensures Table(xs, f) == Ok([129])
  {
    U30Small(1);
    assert Rest(xs) == [];
    assert Each(Rest(xs), f) == Ok([]);
    assert [129] + [] == [129];
  }

  /** Replacing the sentinel of any table changes nothing in `cpool_info`: only entries
      1 .. length-1 are written, after the length that counts the sentinel too. */
  lemma {:induction false} CpoolIgnoresSentinels(p: Pool, q: Pool)
    requires |p.integers| == |q.integers| >= 1 && p.integers[1..] == q.integers[1..]
    requires |p.uintegers| == |q.uintegers| >= 1 && p.uintegers[1..] == q.uintegers[1..]
    requires |p.doubles| == |q.doubles| >= 1 && p.doubles[1..] == q.doubles[1..]
    requires |p.strings| == |q.strings| >= 1 && p.strings[1..] == q.strings[1..]
    requires |p.namespaces| == |q.namespaces| >= 1 && p.namespaces[1..] == q.namespaces[1..]
    requires |p.nsSets| == |q.nsSets| >= 1 && p.nsSets[1..] == q.nsSets[1..]
    requires |p.multinames| == |q.multinames| >= 1 && p.multinames[1..] == q.multinames[1..]
    ensures CpoolBytes(p) == CpoolBytes(q)
  {
    assert Rest(p.integers) == Rest(q.integers) && Rest(p.uintegers) == Rest(q.uintegers);
    assert Rest(p.doubles) == Rest(q.doubles) && Rest(p.strings) == Rest(q.strings);
    assert Rest(p.namespaces) == Rest(q.namespaces) && Rest(p.nsSets) == Rest(q.nsSets);
    assert Rest(p.multinames) == Rest(q.multinames);
  }

  /** The pool of a fresh `CPool` is written as seven counts of 1 and nothing else. */
  lemma InitialPoolBytes()
    ensures CpoolBytes(InitialPool) == Ok([129, 129, 129, 129, 129, 129, 129])
  {
    var p := InitialPool;
    SentinelOnly(p.integers, S32Entry);
    SentinelOnly(p.uintegers, U32Entry);
    SentinelOnly(p.doubles, D64Entry);
    SentinelOnly(p.strings, StringBytes);
    SentinelOnly(p.namespaces, NamespaceBytes);
    SentinelOnly(p.nsSets, NsSetBytes);
    SentinelOnly(p.multinames, MultinameBytes);
    var one: seq<byte> := [129];
    assert Then(Table(p.nsSets, NsSetBytes), Table(p.multinames, MultinameBytes)) == Ok(one + one);
    assert one + (one + one) == [129, 129, 129];
    assert one + [129, 129, 129] == [129, 129, 129, 129];
    assert one + [129, 129, 129, 129] == [129, 129, 129, 129, 129];
    assert one + [129, 129, 129, 129, 129] == [129, 129, 129, 129, 129, 129];
    assert one + [129, 129, 129, 129, 129, 129] == [129, 129, 129, 129, 129, 129, 129];
  }

  /** The file of a fresh `ABCBuilder`: version 19 and 46 as `u16`, the sentinel-only
      pool, and five empty tables. */
  lemma EmptyFileBytes(f: FileValue)
    requires f == FileValue(MinorVersion, MajorVersion, InitialPool, [], [], [], [], [], [])
    ensures AbcFileBytes(f) == Ok([19, 0, 46, 0, 129, 129, 129, 129, 129, 129, 129, 0, 0, 0, 0, 0])
  {
    InitialPoolBytes();
    U30Small(0);
    assert LE(MinorVersion, 2) + LE(MajorVersion, 2) == [19, 0, 46, 0];
    var zero: seq<byte> := [0];
    assert Counted(f.bodies, MethodBodyBytes) == Ok(zero) by {
      assert Each(f.bodies, MethodBodyBytes) == Ok([]);
      assert zero + [] == zero;
    }
    assert Counted(f.methods, MethodInfoBytes) == Ok(zero) by {
      assert Each(f.methods, MethodInfoBytes) == Ok([]);
      assert zero + [] == zero;
    }
    assert Counted(f.metadata, MetadataBytes) == Ok(zero) by {
      assert Each(f.metadata, MetadataBytes) == Ok([]);
      assert zero + [] == zero;
    }
    assert Missing(f.classes, "class_info") == Ok(zero) && Missing(f.scripts, "script_info") == Ok(zero) by {
      assert zero + [] == zero;
    }
    assert zero + zero == [0, 0] && zero + [0, 0] == [0, 0, 0];
    assert zero + [0, 0, 0] == [0, 0, 0, 0] && zero + [0, 0, 0, 0] == [0, 0, 0, 0, 0];
    assert TablesBytes(f) == Ok([0, 0, 0, 0, 0]);
    var pool: seq<byte> := [129, 129, 129, 129, 129, 129, 129];
    assert pool + [0, 0, 0, 0, 0] == [129, 129, 129, 129, 129, 129, 129, 0, 0, 0, 0, 0];
    assert [19, 0, 46, 0] + [129, 129, 129, 129, 129, 129, 129, 0, 0, 0, 0, 0]
        == [19, 0, 46, 0, 129, 129, 129, 129, 129, 129, 129, 0, 0, 0, 0, 0];
  }

  /** Every `abcFile` starts with the two versions as `u16`, minor first: the first two
      byte pairs read back, little-endian, as the versions modulo 2^16. */
  lemma FileHeader(f: FileValue)
    requires AbcFileBytes(f).Ok?
    ensures |AbcFileBytes(f).value| >= 4
    ensures LEValue(AbcFileBytes(f).value[..2]) == f.minor % 0x1_0000
    ensures LEValue(AbcFileBytes(f).value[2..4]) == f.major % 0x1_0000
  {
    var h1, h2 := LE(f.minor, 2), LE(f.major, 2);
    var v := AbcFileBytes(f).value;
    assert v == (h1 + h2) + Then(CpoolBytes(f.pool), TablesBytes(f)).value;
    assert v[..2] == h1 && v[2..4] == h2;
    LERoundTrip(f.minor, 2);
    LERoundTrip(f.major, 2);
    assert Pow(256, 2) == 0x1_0000;
  }

  /** `ns_set_info` throws on its first call, so the namespace-set table is written only
      while it holds nothing but the sentinel. */
  lemma NsSetTableOk(xs: seq<NamespaceSet>)
    ensures Table(xs, NsSetBytes).Ok? <==> |xs| <= 1
    ensures 2 <= |xs| < U30Limit ==> Table(xs, NsSetBytes) == Err(TypeError("ns_set is not iterable"))
  {
    if |xs| == 0 {
      U30Small(0);
    }
  }

  /** The intended `ns_set_info` writes every set whose count and indices fit in `u30`;
      the one written throws for every set. */
  lemma NsSetGap(nss: NamespaceSet)
    ensures NsSetBytes(nss).Err?
    ensures NsSetIntendedBytes(nss).Ok? <==>
      |nss.ns| < U30Limit && forall j :: 0 <= j < |nss.ns| ==> nss.ns[j] < U30Limit
  {
    EachFails(nss.ns, U30Bytes, 0);
  }

  /** `u32` writes different bytes for different 32-bit values. */
  lemma U32Injective(a: int, b: int)
    requires U32Bytes(a) == U32Bytes(b)
    ensures ToUint32(a) == ToUint32(b)
  {
    U32Reassembles(a);
    U32Reassembles(b);
  }

  lemma U32Of129()
    ensures U32Bytes(129) == [129, 129]
  {
    assert BitLength(1) == 1;
    assert BitLength(129) == 1 + BitLength(64);
    assert BitLength(64) == 7 by {
      assert BitLength(64) == 1 + BitLength(32) == 2 + BitLength(16) == 3 + BitLength(8);
      assert BitLength(8) == 1 + BitLength(4) == 2 + BitLength(2) == 3 + BitLength(1);
    }
  }

  /** Because every byte of a nonzero `u32` carries the continuation bit, two `u30`
      fields in a row do not show where the first ends: (1, 129) and (129, 1) are
      written alike. */
  lemma PairAmbiguous()
    ensures PairBytes(1, 129) == PairBytes(129, 1) == Ok([129, 129, 129])
  {
    U30Small(1);
    U32Of129();
    var one: seq<byte> := [129];
    assert one + [129, 129] == [129, 129, 129] && [129, 129] + one == [129, 129, 129];
  }

  /** The QName branch of `multiname_info` as written: the namespace never reaches the
      output, so QNames that differ only in their namespace are written alike. */
  lemma QNameDropsNamespace(ns1: JsVal, ns2: JsVal, name: JsVal)
    ensures MultinameBytes(QName(ns1, name)) == MultinameBytes(QName(ns2, name))
    ensures MultinameBytes(QNameA(ns1, name)) == MultinameBytes(QNameA(ns2, name))
    ensures MultinameBytes(QName(Int(1), Int(2))) == Ok([7, 135, 130])
  {
    U30Small(7);
    U30Small(2);
    var kind: seq<byte> := [7];
    assert kind + ([135] + [130]) == [7, 135, 130];
  }

  /** The intended QName layout keeps the namespace: QNames with one name and different
      namespace indices are written differently. */
  lemma {:induction false} QNameIntendedKeepsNamespace(a: int, b: int, name: JsVal)
    requires 0 <= a < U30Limit && 0 <= b < U30Limit && a != b
    requires 0 <= IntValue(name) < U30Limit
    ensures MultinameIntendedBytes(QName(Int(a), name)) != MultinameIntendedBytes(QName(Int(b), name))
    ensures MultinameIntendedBytes(QName(Int(1), Int(2))) == Ok([7, 129, 130])
  {
    var n := U32Bytes(IntValue(name));
    var sa, sb := U32Bytes(a), U32Bytes(b);
    if MultinameIntendedBytes(QName(Int(a), name)) == MultinameIntendedBytes(QName(Int(b), name)) {
      assert [QNameKind] + (sa + n) == [QNameKind] + (sb + n);
      assert sa + n == ([QNameKind] + (sa + n))[1..] == ([QNameKind] + (sb + n))[1..] == sb + n;
      assert |sa| == |sb|;
      assert sa == (sa + n)[..|sa|] == (sb + n)[..|sb|] == sb;
      U32Injective(a, b);
      assert false;
    }
    U30Small(1);
    U30Small(2);
    var kind: seq<byte> := [7];
    assert kind + ([129] + [130]) == [7, 129, 130];
  }

  // ---------------------------------------------------------------- method records

  /** Only HAS_OPTIONAL lets the option list into `method_info`. */
  lemma OptionsNeedFlag(m: Method, options: seq<OptionDetail>)
    requires !HasFlag(m.flags, HasOptional)
    ensures MethodInfoBytes(m.(options := options)) == MethodInfoBytes(m)
  {
  }

  /** Only HAS_PARAM_NAMES lets the parameter names into `method_info`. */
  lemma ParamNamesNeedFlag(m: Method, names: seq<int>)
    requires !HasFlag(m.flags, HasParamNames)
    ensures MethodInfoBytes(m.(paramNames := names)) == MethodInfoBytes(m)
  {
  }

  /** `method_info` throws exactly when one of its `u30` fields reaches 2^30; when it
      writes, its bytes start with the signature, whose last byte is the flags byte. */
  lemma {:induction false} MethodInfoOk(m: Method)
    ensures SignatureBytes(m).Ok? <==>
      && |m.paramTypes| < U30Limit && m.returnType < U30Limit && m.name < U30Limit
      && forall j :: 0 <= j < |m.paramTypes| ==> m.paramTypes[j] < U30Limit
    ensures SignatureBytes(m).Ok? ==> var s := SignatureBytes(m).value;
      |s| >= 4 && s[|s| - 1] == m.flags % 256
    ensures MethodInfoBytes(m).Ok? ==>
      && SignatureBytes(m).Ok?
      && MethodInfoBytes(m).value[..|SignatureBytes(m).value|] == SignatureBytes(m).value
  {
    EachFails(m.paramTypes, U30Bytes, 0);
    var s := SignatureBytes(m);
    if s.Ok? {
      var tail := Then(U30Bytes(m.name), Ok([m.flags % 256]));
      var t := Then(ParamBytes(m.paramTypes), tail);
      assert s.value == U32Bytes(|m.paramTypes|) + (U32Bytes(m.returnType) + t.value);
      assert t.value == ParamBytes(m.paramTypes).value + tail.value;
      assert tail.value == U32Bytes(m.name) + [m.flags % 256];
      var r := MethodInfoBytes(m);
      if r.Ok? {
        assert r.value == s.value + Then(OptionalPart(m), ParamNamesPart(m)).value;
      }
    }
  }

  /** `method_body_info` throws exactly when a frame field or the code length reaches
      2^30 or the body has an exception or a trait. */
  lemma MethodBodyOk(b: MethodBody)
    ensures MethodBodyBytes(b).Ok? <==>
      && b.methodIndex < U30Limit && b.maxStack < U30Limit && b.localCount < U30Limit
      && b.initScopeDepth < U30Limit && b.maxScopeDepth < U30Limit && |b.code| < U30Limit
      && b.exceptions == [] && b.traits == []
  {
  }

  /** When `method_body_info` writes, the code bytes come verbatim, followed by the two
      zero counts of the empty exception and trait tables. */
  lemma MethodBodyCode(b: MethodBody)
    requires MethodBodyBytes(b).Ok?
    ensures var s := MethodBodyBytes(b).value;
      |s| >= |b.code| + 2 && s[|s| - |b.code| - 2..] == b.code + [0, 0]
  {
    U30Small(0);
    var r := MethodBodyBytes(b);
    var zero: seq<byte> := [0];
    assert Missing(b.exceptions, "exception_info") == Ok(zero) by {
      assert zero + [] == zero;
    }
    assert Missing(b.traits, "traits_info") == Ok(zero) by {
      assert zero + [] == zero;
    }
    assert zero + zero == [0, 0];
    var tail := Then(Ok(b.code), Then(Missing(b.exceptions, "exception_info"), Missing(b.traits, "traits_info")));
    assert tail == Ok(b.code + [0, 0]);
    var head := U32Bytes(b.methodIndex) + U32Bytes(b.maxStack) + U32Bytes(b.localCount)
      + U32Bytes(b.initScopeDepth) + U32Bytes(b.maxScopeDepth) + U32Bytes(|b.code|);
    assert r.value == head + (b.code + [0, 0]);
  }

  /** A table without an entry writer: the count alone when empty, the TypeError of the
      missing method as soon as it has an entry. */
  lemma MissingThrows(xs: seq<Unwritten>, writer: string)
    ensures xs == [] ==> Missing(xs, writer) == Ok([0])
    ensures 0 < |xs| < U30Limit ==> Missing(xs, writer) == Err(NotAFunction(writer))
  {
    U30Small(0);
  }

  /** `metadata_info` throws exactly when the name, the count or an item's key or value
      reaches 2^30. */
  lemma {:induction false} MetadataOk(md: Metadata)
    ensures MetadataBytes(md).Ok? <==>
      && md.name < U30Limit && |md.items| < U30Limit
      && forall j :: 0 <= j < |md.items| ==> md.items[j].key < U30Limit && md.items[j].value < U30Limit
  {
    EachFails(md.items, ItemBytes, 0);
  }

  /** What a file must look like for `abcFile` to get to the end: no class, no script, no
      namespace set beyond the sentinel, and no body with an exception or a trait. */
  lemma {:induction false} WritableFile(f: FileValue)
    requires AbcFileBytes(f).Ok?
    ensures f.classes == [] && f.scripts == [] && |f.pool.nsSets| <= 1
    ensures forall j :: 0 <= j < |f.bodies| ==> f.bodies[j].exceptions == [] && f.bodies[j].traits == []
  {
    NsSetTableOk(f.pool.nsSets);
    EachFails(f.bodies, MethodBodyBytes, 0);
    forall j | 0 <= j < |f.bodies|
      ensures f.bodies[j].exceptions == [] && f.bodies[j].traits == []
    {
      MethodBodyOk(f.bodies[j]);
    }
  }

  /** `string_info` of a short ASCII text: the length byte, then the characters' codes. */
  lemma StringAscii(s: string)
    requires |s| < 128 && forall i :: 0 <= i < |s| ==> s[i] as int < 0x80
    ensures StringBytes(s).Ok? && |StringBytes(s).value| == |s| + 1
    ensures StringBytes(s).value[0] == if s == [] then 0 else 128 + |s|
    ensures forall i :: 0 <= i < |s| ==> StringBytes(s).value[i + 1] == s[i] as int
  {
    Utf8Ascii(s);
    U30Small(|s|);
  }

  // ---------------------------------------------------------------- the objects

  /** abc.js `ABCFile`: the version, the constant pool and the tables. */
  class AbcFile {
    var minorVersion: int
    var majorVersion: int
    const constantPool: CPool
    var methods: seq<Method>
    var metadata: seq<Metadata>
    var instances: seq<Unwritten>
    var classes: seq<Unwritten>
    var scripts: seq<Unwritten>
    var methodBodies: seq<MethodBody>

    function Snapshot(): FileValue
      reads this, constantPool
    {
      FileValue(minorVersion, majorVersion, constantPool.Snapshot(), methods, metadata,
                instances, classes, scripts, methodBodies)
    }

    constructor()
      ensures fresh(constantPool) && constantPool.Valid()
      ensures Snapshot() == FileValue(MinorVersion, MajorVersion, InitialPool, [], [], [], [], [], [])
    {
      minorVersion, majorVersion := MinorVersion, MajorVersion;
      constantPool := new CPool();
      methods, metadata, instances, classes, scripts, methodBodies := [], [], [], [], [], [];
    }
  }

  /** abc.js `ABCBuilder`: a `Builder` (here `out`) with the file it serialises; `cpool`
      is the file's constant pool. */
  class AbcBuilder {
    const out: Builder
    const abc: AbcFile
    const cpool: CPool

    predicate Valid()
      reads this, abc, cpool
    {
      cpool == abc.constantPool && cpool.Valid()
    }

    constructor()
      ensures fresh(out) && fresh(abc) && fresh(cpool) && Valid()
      ensures out.stream == []
      ensures abc.Snapshot() == FileValue(MinorVersion, MajorVersion, InitialPool, [], [], [], [], [], [])
    {
      out := new Builder();
      var file := new AbcFile();
      abc := file;
      cpool := file.constantPool;
    }

    // -------------------------------------------------------------- pool front ends

    method Integer(v: int) returns (index: nat)
      requires Valid()
      modifies cpool
      ensures (index, cpool.Snapshot()) == InternInteger(old(cpool.Snapshot()), v) && Valid()
    {
      index := cpool.Integer(v);
    }

    method Uinteger(v: int) returns (index: nat)
      requires Valid()
      modifies cpool
      ensures (index, cpool.Snapshot()) == InternUinteger(old(cpool.Snapshot()), v) && Valid()
    {
      index := cpool.Uinteger(v);
    }

    method Double(d: Double) returns (index: nat)
      requires Valid()
      modifies cpool
      ensures (index, cpool.Snapshot()) == InternDouble(old(cpool.Snapshot()), d) && Valid()
    {
      index := cpool.Double(d);
    }

    /** `string(val)`: `String(val)` is interned. */
    method String(v: JsVal) returns (index: nat)
      requires Valid()
      modifies cpool
      ensures (index, cpool.Snapshot()) == InternString(old(cpool.Snapshot()), JsString(v)) && Valid()
    {
      index := cpool.String(JsString(v));
    }

    /** `namespace(kind, name)`: the name is interned as a string first. */
    method Namespace(kind: JsVal, name: JsVal) returns (index: nat)
      requires Valid()
      modifies cpool
      ensures var (s, p) := InternString(old(cpool.Snapshot()), JsString(name));
        (index, cpool.Snapshot()) == InternNamespace(p, ConstantPool.Namespace.Namespace(kind, Int(s))) && Valid()
    {
      var s := cpool.String(JsString(name));
      index := cpool.Namespace(ConstantPool.Namespace.Namespace(kind, Int(s)));
    }

    method NamespaceSet(namespaces: seq<int>) returns (r: Result<nat>)
      requires Valid()
      ensures r == (var q :- InternNamespaceSet(cpool.Snapshot(), ConstantPool.NamespaceSet.NamespaceSet(namespaces)); Ok(q.0))
    {
      r := cpool.NamespaceSet(ConstantPool.NamespaceSet.NamespaceSet(namespaces));
    }

    /** `qname`, `qnameA`, `rtqname`, `rtqnameA`, `rtqnameL`, `rtqnameLA`: a multiname of
        that class, interned. The last two ignore their argument. */
    method Multiname(m: Multiname) returns (index: nat)
      requires Valid()
      modifies cpool
      ensures (index, cpool.Snapshot()) == InternMultiname(old(cpool.Snapshot()), m) && Valid()
    {
      index := cpool.Multiname(m);
    }

    /** `method(info)`: push a new signature and return its index. */
    method Method(info: MethodFields) returns (index: nat)
      modifies abc
      ensures index == |old(abc.methods)| && abc.methods == old(abc.methods) + [NewMethod(info)]
      ensures unchanged(abc`metadata, abc`methodBodies, abc`instances, abc`classes, abc`scripts)
      ensures unchanged(abc`minorVersion, abc`majorVersion)
    {
      abc.methods := abc.methods + [NewMethod(info)];
      index := |abc.methods| - 1;
    }

    /** `methodBody(info)`: push a new body and return its index. */
    method MethodBody(info: BodyFields) returns (index: nat)
      modifies abc
      ensures index == |old(abc.methodBodies)|
      ensures abc.methodBodies == old(abc.methodBodies) + [NewMethodBody(info)]
      ensures unchanged(abc`metadata, abc`methods, abc`instances, abc`classes, abc`scripts)
      ensures unchanged(abc`minorVersion, abc`majorVersion)
    {
      abc.methodBodies := abc.methodBodies + [NewMethodBody(info)];
      index := |abc.methodBodies| - 1;
    }

    /** `metadata(name, items)`: a record with the name interned; it is not added to the
        file. */
    method MetadataRecord(name: JsVal, items: seq<Item>) returns (md: Metadata)
      requires Valid()
      modifies cpool
      ensures (md.name, cpool.Snapshot()) == InternString(old(cpool.Snapshot()), JsString(name))
      ensures md.items == items && Valid()
    {
      var s := cpool.String(JsString(name));
      md := Metadata(s, items);
    }

    // -------------------------------------------------------------- serialisers

    method U30(v: int) returns (r: Outcome)
      modifies out
      ensures r == Status(U30Bytes(v))
      ensures r.Pass? ==> out.stream == old(out.stream) + U30Bytes(v).value
    {
      r := out.U30(v);
    }

    /** Two `u30` calls; the second is not made when the first throws. */
    method U30Pair(a: int, b: int) returns (r: Outcome)
      modifies out
      ensures r == Status(PairBytes(a, b))
      ensures r.Pass? ==> out.stream == old(out.stream) + PairBytes(a, b).value
    {
      ghost var goal := PairBytes(a, b);
      r := U30(a);
      if r.Fail? {
        return;
      }
      ghost var w := U30Bytes(a).value;
      FirstPass(U30Bytes(a), U30Bytes(b), goal);
      r := U30(b);
      if r.Pass? {
        LastPass(old(out.stream), w, U30Bytes(b), goal, out.stream);
      }
    }

    /** One `u8` per byte, as `string_info` and `method_body_info` copy their bytes. */
    method U8Each(bytes: seq<byte>)
      modifies out
      ensures out.stream == old(out.stream) + bytes
    {
      var i := 0;
      while i < |bytes|
        invariant 0 <= i <= |bytes| && out.stream == old(out.stream) + bytes[..i]
      {
        out.U8(bytes[i]);
        assert bytes[..i + 1] == bytes[..i] + [bytes[i]];
        i := i + 1;
      }
      assert bytes[..i] == bytes;
    }

    /** `param_info(names)`, and the parameter-type loop of `method_info`: one `u30` per
        value. */
    method ParamInfo(vs: seq<int>) returns (r: Outcome)
      modifies out
      ensures r == Status(ParamBytes(vs))
      ensures r.Pass? ==> out.stream == old(out.stream) + ParamBytes(vs).value
    {
      ghost var goal := ParamBytes(vs);
      ghost var w: seq<byte> := [];
      LoopBegin(old(out.stream), vs, U30Bytes, goal);
      var i := 0;
      while i < |vs|
        invariant 0 <= i <= |vs| && out.stream == old(out.stream) + w
        invariant Prepend(w, Each(vs, U30Bytes, i)) == goal
      {
        r := U30(vs[i]);
        if r.Fail? {
          AdvanceFail(w, vs, U30Bytes, i, goal);
          return;
        }
        ghost var e := U30Bytes(vs[i]).value;
        Advance(old(out.stream), w, vs, U30Bytes, i, goal, e, out.stream);
        w := w + e;
        i := i + 1;
      }
      Finish(w, vs, U30Bytes, i, goal);
      r := Pass;
    }

    // -------------------------------------------------------------- cpool_info

    method IntegerTable(xs: seq<int>) returns (r: Outcome)
      modifies out
      ensures r == Status(Table(xs, S32Entry))
      ensures r.Pass? ==> out.stream == old(out.stream) + Table(xs, S32Entry).value
    {
      ghost var goal := Table(xs, S32Entry);
      var rest := Rest(xs);
      r := U30(|xs|);
      if r.Fail? {
        return;
      }
      ghost var w := U30Bytes(|xs|).value;
      FirstPass(U30Bytes(|xs|), Each(rest, S32Entry), goal);
      var i := 0;
      while i < |rest|
        invariant 0 <= i <= |rest| && out.stream == old(out.stream) + w
        invariant Prepend(w, Each(rest, S32Entry, i)) == goal
      {
        ghost var e := S32Bytes(rest[i]);
        out.S32(rest[i]);
        Advance(old(out.stream), w, rest, S32Entry, i, goal, e, out.stream);
        w := w + e;
        i := i + 1;
      }
      Finish(w, rest, S32Entry, i, goal);
    }

    method UintegerTable(xs: seq<int>) returns (r: Outcome)
      modifies out
      ensures r == Status(Table(xs, U32Entry))
      ensures r.Pass? ==> out.stream == old(out.stream) + Table(xs, U32Entry).value
    {
      ghost var goal := Table(xs, U32Entry);
      var rest := Rest(xs);
      r := U30(|xs|);
      if r.Fail? {
        return;
      }
      ghost var w := U30Bytes(|xs|).value;
      FirstPass(U30Bytes(|xs|), Each(rest, U32Entry), goal);
      var i := 0;
      while i < |rest|
        invariant 0 <= i <= |rest| && out.stream == old(out.stream) + w
        invariant Prepend(w, Each(rest, U32Entry, i)) == goal
      {
        ghost var e := U32Bytes(rest[i]);
        out.U32(rest[i]);
        Advance(old(out.stream), w, rest, U32Entry, i, goal, e, out.stream);
        w := w + e;
        i := i + 1;
      }
      Finish(w, rest, U32Entry, i, goal);
    }

    method DoubleTable(xs: seq<Double>) returns (r: Outcome)
      modifies out
      ensures r == Status(Table(xs, D64Entry))
      ensures r.Pass? ==> out.stream == old(out.stream) + Table(xs, D64Entry).value
    {
      ghost var goal := Table(xs, D64Entry);
      var rest := Rest(xs);
      r := U30(|xs|);
      if r.Fail? {
        return;
      }
      ghost var w := U30Bytes(|xs|).value;
      FirstPass(U30Bytes(|xs|), Each(rest, D64Entry), goal);
      var i := 0;
      while i < |rest|
        invariant 0 <= i <= |rest| && out.stream == old(out.stream) + w
        invariant Prepend(w, Each(rest, D64Entry, i)) == goal
      {
        ghost var e := D64Bytes(rest[i]);
        out.D64(rest[i]);
        Advance(old(out.stream), w, rest, D64Entry, i, goal, e, out.stream);
        w := w + e;
        i := i + 1;
      }
      Finish(w, rest, D64Entry, i, goal);
    }

    method StringTable(xs: seq<string>) returns (r: Outcome)
      modifies out
      ensures r == Status(Table(xs, StringBytes))
      ensures r.Pass? ==> out.stream == old(out.stream) + Table(xs, StringBytes).value
    {
      ghost var goal := Table(xs, StringBytes);
      var rest := Rest(xs);
      r := U30(|xs|);
      if r.Fail? {
        return;
      }
      ghost var w := U30Bytes(|xs|).value;
      FirstPass(U30Bytes(|xs|), Each(rest, StringBytes), goal);
      var i := 0;
      while i < |rest|
        invariant 0 <= i <= |rest| && out.stream == old(out.stream) + w
        invariant Prepend(w, Each(rest, StringBytes, i)) == goal
      {
        r := StringInfo(rest[i]);
        if r.Fail? {
          AdvanceFail(w, rest, StringBytes, i, goal);
          return;
        }
        ghost var e := StringBytes(rest[i]).value;
        Advance(old(out.stream), w, rest, StringBytes, i, goal, e, out.stream);
        w := w + e;
        i := i + 1;
      }
      Finish(w, rest, StringBytes, i, goal);
      r := Pass;
    }

    method NamespaceTable(xs: seq<Namespace>) returns (r: Outcome)
      modifies out
      ensures r == Status(Table(xs, NamespaceBytes))
      ensures r.Pass? ==> out.stream == old(out.stream) + Table(xs, NamespaceBytes).value
    {
      ghost var goal := Table(xs, NamespaceBytes);
      var rest := Rest(xs);
      r := U30(|xs|);
      if r.Fail? {
        return;
      }
      ghost var w := U30Bytes(|xs|).value;
      FirstPass(U30Bytes(|xs|), Each(rest, NamespaceBytes), goal);
      var i := 0;
      while i < |rest|
        invariant 0 <= i <= |rest| && out.stream == old(out.stream) + w
        invariant Prepend(w, Each(rest, NamespaceBytes, i)) == goal
      {
        r := NamespaceInfo(rest[i]);
        if r.Fail? {
          AdvanceFail(w, rest, NamespaceBytes, i, goal);
          return;
        }
        ghost var e := NamespaceBytes(rest[i]).value;
        Advance(old(out.stream), w, rest, NamespaceBytes, i, goal, e, out.stream);
        w := w + e;
        i := i + 1;
      }
      Finish(w, rest, NamespaceBytes, i, goal);
      r := Pass;
    }

    /** The namespace-set table. Its loop never gets past the first entry, because
        `ns_set_info` always throws, so the loop is written as that one call. */
    method NsSetTable(xs: seq<NamespaceSet>) returns (r: Outcome)
      modifies out
      ensures r == Status(Table(xs, NsSetBytes))
      ensures r.Pass? ==> out.stream == old(out.stream) + Table(xs, NsSetBytes).value
    {
      ghost var goal := Table(xs, NsSetBytes);
      var rest := Rest(xs);
      r := U30(|xs|);
      if r.Fail? {
        return;
      }
      ghost var w := U30Bytes(|xs|).value;
      FirstPass(U30Bytes(|xs|), Each(rest, NsSetBytes), goal);
      if rest != [] {
        AdvanceFail(w, rest, NsSetBytes, 0, goal);
        r := NsSetInfo(rest[0]);
        return;
      }
      Finish(w, rest, NsSetBytes, 0, goal);
    }

    method MultinameTable(xs: seq<Multiname>) returns (r: Outcome)
      modifies out
      ensures r == Status(Table(xs, MultinameBytes))
      ensures r.Pass? ==> out.stream == old(out.stream) + Table(xs, MultinameBytes).value
    {
      ghost var goal := Table(xs, MultinameBytes);
      var rest := Rest(xs);
      r := U30(|xs|);
      if r.Fail? {
        return;
      }
      ghost var w := U30Bytes(|xs|).value;
      FirstPass(U30Bytes(|xs|), Each(rest, MultinameBytes), goal);
      var i := 0;
      while i < |rest|
        invariant 0 <= i <= |rest| && out.stream == old(out.stream) + w
        invariant Prepend(w, Each(rest, MultinameBytes, i)) == goal
      {
        r := MultinameInfo(rest[i]);
        if r.Fail? {
          AdvanceFail(w, rest, MultinameBytes, i, goal);
          return;
        }
        ghost var e := MultinameBytes(rest[i]).value;
        Advance(old(out.stream), w, rest, MultinameBytes, i, goal, e, out.stream);
        w := w + e;
        i := i + 1;
      }
      Finish(w, rest, MultinameBytes, i, goal);
      r := Pass;
    }

    /** `cpool_info(cpool)`: the seven tables in order. */
    method CpoolInfo(c: CPool) returns (r: Outcome)
      modifies out
      ensures r == Status(CpoolBytes(c.Snapshot()))
      ensures r.Pass? ==> out.stream == old(out.stream) + CpoolBytes(c.Snapshot()).value
    {
      ghost var p := c.Snapshot();
      ghost var goal := CpoolBytes(p);
      ghost var t6 := Then(Table(p.nsSets, NsSetBytes), Table(p.multinames, MultinameBytes));
      ghost var t5 := Then(Table(p.namespaces, NamespaceBytes), t6);
      ghost var t4 := Then(Table(p.strings, StringBytes), t5);
      ghost var t3 := Then(Table(p.doubles, D64Entry), t4);
      ghost var t2 := Then(Table(p.uintegers, U32Entry), t3);
      r := IntegerTable(c.integers);
      if r.Fail? {
        return;
      }
      ghost var w := Table(p.integers, S32Entry).value;
      FirstPass(Table(p.integers, S32Entry), t2, goal);
      r := UintegerTable(c.uintegers);
      if r.Fail? {
        ThenFail(w, Table(p.uintegers, U32Entry), t3, goal);
        return;
      }
      ThenPass(old(out.stream), w, Table(p.uintegers, U32Entry), t3, goal, out.stream);
      w := w + Table(p.uintegers, U32Entry).value;
      r := DoubleTable(c.doubles);
      if r.Fail? {
        ThenFail(w, Table(p.doubles, D64Entry), t4, goal);
        return;
      }
      ThenPass(old(out.stream), w, Table(p.doubles, D64Entry), t4, goal, out.stream);
      w := w + Table(p.doubles, D64Entry).value;
      r := StringTable(c.strings);
      if r.Fail? {
        ThenFail(w, Table(p.strings, StringBytes), t5, goal);
        return;
      }
      ThenPass(old(out.stream), w, Table(p.strings, StringBytes), t5, goal, out.stream);
      w := w + Table(p.strings, StringBytes).value;
      r := NamespaceTable(c.namespaces);
      if r.Fail? {
        ThenFail(w, Table(p.namespaces, NamespaceBytes), t6, goal);
        return;
      }
      ThenPass(old(out.stream), w, Table(p.namespaces, NamespaceBytes), t6, goal, out.stream);
      w := w + Table(p.namespaces, NamespaceBytes).value;
      r := NsSetTable(c.nsSets);
      if r.Fail? {
        ThenFail(w, Table(p.nsSets, NsSetBytes), Table(p.multinames, MultinameBytes), goal);
        return;
      }
      ThenPass(old(out.stream), w, Table(p.nsSets, NsSetBytes), Table(p.multinames, MultinameBytes),
               goal, out.stream);
      w := w + Table(p.nsSets, NsSetBytes).value;
      r := MultinameTable(c.multinames);
      if r.Pass? {
        LastPass(old(out.stream), w, Table(p.multinames, MultinameBytes), goal, out.stream);
      }
    }

    /** `string_info(str)`: the UTF-8 length, then one `u8` per byte. */
    method StringInfo(str: string) returns (r: Outcome)
      modifies out
      ensures r == Status(StringBytes(str))
      ensures r.Pass? ==> out.stream == old(out.stream) + StringBytes(str).value
    {
      ghost var goal := StringBytes(str);
      var bytes := Utf8(str);
      r := U30(|bytes|);
      if r.Fail? {
        return;
      }
      ghost var w := U30Bytes(|bytes|).value;
      FirstPass(U30Bytes(|bytes|), Ok(bytes), goal);
      U8Each(bytes);
      LastPass(old(out.stream), w, Ok(bytes), goal, out.stream);
    }

    /** `namespace_info(ns)`: `u8(kind)`, then `u30(name)`. */
    method NamespaceInfo(ns: Namespace) returns (r: Outcome)
      modifies out
      ensures r == Status(NamespaceBytes(ns))
      ensures r.Pass? ==> out.stream == old(out.stream) + NamespaceBytes(ns).value
    {
      out.U8(IntValue(ns.kind));
      r := U30(IntValue(ns.name));
      if r.Pass? {
        PrependPass(old(out.stream), [IntValue(ns.kind) % 256], U30Value(ns.name), out.stream);
      }
    }

    /** `ns_set_info(ns_set)` on the `NamespaceSet` object `cpool_info` hands it: `u30` of
        the undefined `length` (0), then the iteration that throws. */
    method NsSetInfo(nss: NamespaceSet) returns (r: Outcome)
      modifies out
      ensures r == Status(NsSetBytes(nss))
    {
      r := U30(IntValue(Undefined));
      r := Fail(TypeError("ns_set is not iterable"));
    }

    /** `multiname_info(multiname)`: the kind byte, then the operands of that kind. */
    method MultinameInfo(m: Multiname) returns (r: Outcome)
      modifies out
      ensures r == Status(MultinameBytes(m))
      ensures r.Pass? ==> out.stream == old(out.stream) + MultinameBytes(m).value
    {
      out.U8(Kind(m));
      assert Kind(m) % 256 == Kind(m);
      r := OperandsInfo(m);
      KindThenOperands(old(out.stream), m, r, out.stream);
    }

    /** The `switch` of `multiname_info` on the kind. Its `default` branch, which throws,
        cannot be reached: every multiname has one of the ten kinds. */
    method OperandsInfo(m: Multiname) returns (r: Outcome)
      modifies out
      ensures r == Status(MultinameOperands(m))
      ensures r.Pass? ==> out.stream == old(out.stream) + MultinameOperands(m).value
    {
      match m {
        case QName(_, name) => r := U30Pair(Kind(m), IntValue(name));
        case QNameA(_, name) => r := U30Pair(Kind(m), IntValue(name));
        case RTQName(name) => r := U30(IntValue(name));
        case RTQNameA(name) => r := U30(IntValue(name));
        case RTQNameL => r := Pass; assert old(out.stream) + [] == out.stream;
        case RTQNameLA => r := Pass; assert old(out.stream) + [] == out.stream;
        case Multiname(name, nss) => r := U30Pair(IntValue(name), IntValue(nss));
        case MultinameA(name, nss) => r := U30Pair(IntValue(name), IntValue(nss));
        case MultinameL(nss) => r := U30(IntValue(nss));
        case MultinameLA(nss) => r := U30(IntValue(nss));
      }
    }

    // -------------------------------------------------------------- method_info

    /** `option_detail(option)`: `u30(val)`, then `u8(kind)`. */
    method OptionDetailInfo(o: OptionDetail) returns (r: Outcome)
      modifies out
      ensures r == Status(OptionDetailBytes(o))
      ensures r.Pass? ==> out.stream == old(out.stream) + OptionDetailBytes(o).value
    {
      ghost var goal := OptionDetailBytes(o);
      r := U30(o.val);
      if r.Fail? {
        return;
      }
      ghost var w := U30Bytes(o.val).value;
      FirstPass(U30Bytes(o.val), Ok([o.kind % 256]), goal);
      out.U8(o.kind);
      LastPass(old(out.stream), w, Ok([o.kind % 256]), goal, out.stream);
    }

    /** `option_info(options)`: the count, then each option. */
    method OptionInfo(options: seq<OptionDetail>) returns (r: Outcome)
      modifies out
      ensures r == Status(OptionBytes(options))
      ensures r.Pass? ==> out.stream == old(out.stream) + OptionBytes(options).value
    {
      ghost var goal := OptionBytes(options);
      r := U30(|options|);
      if r.Fail? {
        return;
      }
      ghost var w := U30Bytes(|options|).value;
      FirstPass(U30Bytes(|options|), Each(options, OptionDetailBytes), goal);
      var i := 0;
      while i < |options|
        invariant 0 <= i <= |options| && out.stream == old(out.stream) + w
        invariant Prepend(w, Each(options, OptionDetailBytes, i)) == goal
      {
        r := OptionDetailInfo(options[i]);
        if r.Fail? {
          AdvanceFail(w, options, OptionDetailBytes, i, goal);
          return;
        }
        ghost var e := OptionDetailBytes(options[i]).value;
        Advance(old(out.stream), w, options, OptionDetailBytes, i, goal, e, out.stream);
        w := w + e;
        i := i + 1;
      }
      Finish(w, options, OptionDetailBytes, i, goal);
      r := Pass;
    }

    /** The signature part of `method_info(method)`. */
    method SignatureInfo(m: Method) returns (r: Outcome)
      modifies out
      ensures r == Status(SignatureBytes(m))
      ensures r.Pass? ==> out.stream == old(out.stream) + SignatureBytes(m).value
    {
      ghost var goal := SignatureBytes(m);
      ghost var t3 := Then(U30Bytes(m.name), Ok([m.flags % 256]));
      ghost var t2 := Then(ParamBytes(m.paramTypes), t3);
      ghost var t1 := Then(U30Bytes(m.returnType), t2);
      r := U30(|m.paramTypes|);
      if r.Fail? {
        return;
      }
      ghost var w := U30Bytes(|m.paramTypes|).value;
      FirstPass(U30Bytes(|m.paramTypes|), t1, goal);
      r := U30(m.returnType);
      if r.Fail? {
        ThenFail(w, U30Bytes(m.returnType), t2, goal);
        return;
      }
      ThenPass(old(out.stream), w, U30Bytes(m.returnType), t2, goal, out.stream);
      w := w + U30Bytes(m.returnType).value;
      r := ParamInfo(m.paramTypes);
      if r.Fail? {
        ThenFail(w, ParamBytes(m.paramTypes), t3, goal);
        return;
      }
      ThenPass(old(out.stream), w, ParamBytes(m.paramTypes), t3, goal, out.stream);
      w := w + ParamBytes(m.paramTypes).value;
      r := U30(m.name);
      if r.Fail? {
        ThenFail(w, U30Bytes(m.name), Ok([m.flags % 256]), goal);
        return;
      }
      ThenPass(old(out.stream), w, U30Bytes(m.name), Ok([m.flags % 256]), goal, out.stream);
      w := w + U30Bytes(m.name).value;
      out.U8(m.flags);
      LastPass(old(out.stream), w, Ok([m.flags % 256]), goal, out.stream);
    }

    /** `method_info(method)`: the signature, the options under HAS_OPTIONAL, the
        parameter names under HAS_PARAM_NAMES. */
    method MethodInfo(m: Method) returns (r: Outcome)
      modifies out
      ensures r == Status(MethodInfoBytes(m))
      ensures r.Pass? ==> out.stream == old(out.stream) + MethodInfoBytes(m).value
    {
      ghost var goal := MethodInfoBytes(m);
      ghost var t1 := Then(OptionalPart(m), ParamNamesPart(m));
      r := SignatureInfo(m);
      if r.Fail? {
        return;
      }
      ghost var w := SignatureBytes(m).value;
      FirstPass(SignatureBytes(m), t1, goal);
      if HasFlag(m.flags, HasOptional) {
        r := OptionInfo(m.options);
        if r.Fail? {
          ThenFail(w, OptionalPart(m), ParamNamesPart(m), goal);
          return;
        }
      }
      ThenPass(old(out.stream), w, OptionalPart(m), ParamNamesPart(m), goal, out.stream);
      w := w + OptionalPart(m).value;
      r := Pass;
      if HasFlag(m.flags, HasParamNames) {
        r := ParamInfo(m.paramNames);
      }
      if r.Pass? {
        LastPass(old(out.stream), w, ParamNamesPart(m), goal, out.stream);
      }
    }

    // -------------------------------------------------------------- the other tables

    /** `method_body_info(body)`. */
    method MethodBodyInfo(b: MethodBody) returns (r: Outcome)
      modifies out
      ensures r == Status(MethodBodyBytes(b))
      ensures r.Pass? ==> out.stream == old(out.stream) + MethodBodyBytes(b).value
    {
      ghost var goal := MethodBodyBytes(b);
      ghost var t7 := Then(Missing(b.exceptions, "exception_info"), Missing(b.traits, "traits_info"));
      ghost var t6 := Then(Ok(b.code), t7);
      ghost var t5 := Then(U30Bytes(|b.code|), t6);
      ghost var t4 := Then(U30Bytes(b.maxScopeDepth), t5);
      ghost var t3 := Then(U30Bytes(b.initScopeDepth), t4);
      ghost var t2 := Then(U30Bytes(b.localCount), t3);
      ghost var t1 := Then(U30Bytes(b.maxStack), t2);
      r := U30(b.methodIndex);
      if r.Fail? {
        return;
      }
      ghost var w := U30Bytes(b.methodIndex).value;
      FirstPass(U30Bytes(b.methodIndex), t1, goal);
      r := U30(b.maxStack);
      if r.Fail? {
        ThenFail(w, U30Bytes(b.maxStack), t2, goal);
        return;
      }
      ThenPass(old(out.stream), w, U30Bytes(b.maxStack), t2, goal, out.stream);
      w := w + U30Bytes(b.maxStack).value;
      r := U30(b.localCount);
      if r.Fail? {
        ThenFail(w, U30Bytes(b.localCount), t3, goal);
        return;
      }
      ThenPass(old(out.stream), w, U30Bytes(b.localCount), t3, goal, out.stream);
      w := w + U30Bytes(b.localCount).value;
      r := U30(b.initScopeDepth);
      if r.Fail? {
        ThenFail(w, U30Bytes(b.initScopeDepth), t4, goal);
        return;
      }
      ThenPass(old(out.stream), w, U30Bytes(b.initScopeDepth), t4, goal, out.stream);
      w := w + U30Bytes(b.initScopeDepth).value;
      r := U30(b.maxScopeDepth);
      if r.Fail? {
        ThenFail(w, U30Bytes(b.maxScopeDepth), t5, goal);
        return;
      }
      ThenPass(old(out.stream), w, U30Bytes(b.maxScopeDepth), t5, goal, out.stream);
      w := w + U30Bytes(b.maxScopeDepth).value;
      r := U30(|b.code|);
      if r.Fail? {
        ThenFail(w, U30Bytes(|b.code|), t6, goal);
        return;
      }
      ThenPass(old(out.stream), w, U30Bytes(|b.code|), t6, goal, out.stream);
      w := w + U30Bytes(|b.code|).value;
      U8Each(b.code);
      ThenPass(old(out.stream), w, Ok(b.code), t7, goal, out.stream);
      w := w + b.code;
      r := UnwrittenTable(b.exceptions, "exception_info");
      if r.Fail? {
        ThenFail(w, Missing(b.exceptions, "exception_info"), Missing(b.traits, "traits_info"), goal);
        return;
      }
      ThenPass(old(out.stream), w, Missing(b.exceptions, "exception_info"),
               Missing(b.traits, "traits_info"), goal, out.stream);
      w := w + Missing(b.exceptions, "exception_info").value;
      r := UnwrittenTable(b.traits, "traits_info");
      if r.Pass? {
        LastPass(old(out.stream), w, Missing(b.traits, "traits_info"), goal, out.stream);
      }
    }

    /** `u30(xs.length)` and a loop calling `this[writer]`, which the class does not
        define: the first entry throws. */
    method UnwrittenTable(xs: seq<Unwritten>, writer: string) returns (r: Outcome)
      modifies out
      ensures r == Status(Missing(xs, writer))
      ensures r.Pass? ==> out.stream == old(out.stream) + Missing(xs, writer).value
    {
      ghost var goal := Missing(xs, writer);
      r := U30(|xs|);
      if r.Fail? {
        return;
      }
      ghost var w := U30Bytes(|xs|).value;
      FirstPass(U30Bytes(|xs|), if xs == [] then Ok([]) else Err(NotAFunction(writer)), goal);
      if xs != [] {
        r := Fail(NotAFunction(writer));
        return;
      }
      LastPass(old(out.stream), w, Ok([]), goal, out.stream);
    }

    /** `item_info(item)`: key, then value. */
    method ItemInfo(it: Item) returns (r: Outcome)
      modifies out
      ensures r == Status(ItemBytes(it))
      ensures r.Pass? ==> out.stream == old(out.stream) + ItemBytes(it).value
    {
      r := U30Pair(it.key, it.value);
    }

    /** `metadata_info(metadata)`: the name, the item count, then each item. */
    method MetadataInfo(md: Metadata) returns (r: Outcome)
      modifies out
      ensures r == Status(MetadataBytes(md))
      ensures r.Pass? ==> out.stream == old(out.stream) + MetadataBytes(md).value
    {
      ghost var goal := MetadataBytes(md);
      ghost var items := Counted(md.items, ItemBytes);
      r := U30(md.name);
      if r.Fail? {
        return;
      }
      ghost var w := U30Bytes(md.name).value;
      FirstPass(U30Bytes(md.name), items, goal);
      r := U30(|md.items|);
      if r.Fail? {
        ThenFail(w, U30Bytes(|md.items|), Each(md.items, ItemBytes), goal);
        return;
      }
      ThenPass(old(out.stream), w, U30Bytes(|md.items|), Each(md.items, ItemBytes), goal, out.stream);
      w := w + U30Bytes(|md.items|).value;
      var i := 0;
      while i < |md.items|
        invariant 0 <= i <= |md.items| && out.stream == old(out.stream) + w
        invariant Prepend(w, Each(md.items, ItemBytes, i)) == goal
      {
        r := ItemInfo(md.items[i]);
        if r.Fail? {
          AdvanceFail(w, md.items, ItemBytes, i, goal);
          return;
        }
        ghost var e := ItemBytes(md.items[i]).value;
        Advance(old(out.stream), w, md.items, ItemBytes, i, goal, e, out.stream);
        w := w + e;
        i := i + 1;
      }
      Finish(w, md.items, ItemBytes, i, goal);
      r := Pass;
    }

    /** `u30(file.methods.length)` and `method_info` per method. */
    method MethodTable(ms: seq<Method>) returns (r: Outcome)
      modifies out
      ensures r == Status(Counted(ms, MethodInfoBytes))
      ensures r.Pass? ==> out.stream == old(out.stream) + Counted(ms, MethodInfoBytes).value
    {
      ghost var goal := Counted(ms, MethodInfoBytes);
      r := U30(|ms|);
      if r.Fail? {
        return;
      }
      ghost var w := U30Bytes(|ms|).value;
      FirstPass(U30Bytes(|ms|), Each(ms, MethodInfoBytes), goal);
      var i := 0;
      while i < |ms|
        invariant 0 <= i <= |ms| && out.stream == old(out.stream) + w
        invariant Prepend(w, Each(ms, MethodInfoBytes, i)) == goal
      {
        r := MethodInfo(ms[i]);
        if r.Fail? {
          AdvanceFail(w, ms, MethodInfoBytes, i, goal);
          return;
        }
        ghost var e := MethodInfoBytes(ms[i]).value;
        Advance(old(out.stream), w, ms, MethodInfoBytes, i, goal, e, out.stream);
        w := w + e;
        i := i + 1;
      }
      Finish(w, ms, MethodInfoBytes, i, goal);
      r := Pass;
    }

    /** `u30(file.metadata.length)` and `metadata_info` per record. */
    method MetadataTable(mds: seq<Metadata>) returns (r: Outcome)
      modifies out
      ensures r == Status(Counted(mds, MetadataBytes))
      ensures r.Pass? ==> out.stream == old(out.stream) + Counted(mds, MetadataBytes).value
    {
      ghost var goal := Counted(mds, MetadataBytes);
      r := U30(|mds|);
      if r.Fail? {
        return;
      }
      ghost var w := U30Bytes(|mds|).value;
      FirstPass(U30Bytes(|mds|), Each(mds, MetadataBytes), goal);
      var i := 0;
      while i < |mds|
        invariant 0 <= i <= |mds| && out.stream == old(out.stream) + w
        invariant Prepend(w, Each(mds, MetadataBytes, i)) == goal
      {
        r := MetadataInfo(mds[i]);
        if r.Fail? {
          AdvanceFail(w, mds, MetadataBytes, i, goal);
          return;
        }
        ghost var e := MetadataBytes(mds[i]).value;
        Advance(old(out.stream), w, mds, MetadataBytes, i, goal, e, out.stream);
        w := w + e;
        i := i + 1;
      }
      Finish(w, mds, MetadataBytes, i, goal);
      r := Pass;
    }

    /** `u30(file.method_bodies.length)` and `method_body_info` per body. */
    method BodyTable(bs: seq<MethodBody>) returns (r: Outcome)
      modifies out
      ensures r == Status(Counted(bs, MethodBodyBytes))
      ensures r.Pass? ==> out.stream == old(out.stream) + Counted(bs, MethodBodyBytes).value
    {
      ghost var goal := Counted(bs, MethodBodyBytes);
      r := U30(|bs|);
      if r.Fail? {
        return;
      }
      ghost var w := U30Bytes(|bs|).value;
      FirstPass(U30Bytes(|bs|), Each(bs, MethodBodyBytes), goal);
      var i := 0;
      while i < |bs|
        invariant 0 <= i <= |bs| && out.stream == old(out.stream) + w
        invariant Prepend(w, Each(bs, MethodBodyBytes, i)) == goal
      {
        r := MethodBodyInfo(bs[i]);
        if r.Fail? {
          AdvanceFail(w, bs, MethodBodyBytes, i, goal);
          return;
        }
        ghost var e := MethodBodyBytes(bs[i]).value;
        Advance(old(out.stream), w, bs, MethodBodyBytes, i, goal, e, out.stream);
        w := w + e;
        i := i + 1;
      }
      Finish(w, bs, MethodBodyBytes, i, goal);
      r := Pass;
    }

    /** The tables `abcFile` writes after the constant pool. The loop over `instances`
        is left out: `instance_info` has an empty body. */
    method TablesInfo(file: AbcFile) returns (r: Outcome)
      modifies out
      ensures r == Status(TablesBytes(file.Snapshot()))
      ensures r.Pass? ==> out.stream == old(out.stream) + TablesBytes(file.Snapshot()).value
    {
      ghost var f := file.Snapshot();
      ghost var goal := TablesBytes(f);
      ghost var t3 := Then(Missing(f.scripts, "script_info"), Counted(f.bodies, MethodBodyBytes));
      ghost var t2 := Then(Missing(f.classes, "class_info"), t3);
      ghost var t1 := Then(Counted(f.metadata, MetadataBytes), t2);
      r := MethodTable(file.methods);
      if r.Fail? {
        return;
      }
      ghost var w := Counted(f.methods, MethodInfoBytes).value;
      FirstPass(Counted(f.methods, MethodInfoBytes), t1, goal);
      r := MetadataTable(file.metadata);
      if r.Fail? {
        ThenFail(w, Counted(f.metadata, MetadataBytes), t2, goal);
        return;
      }
      ThenPass(old(out.stream), w, Counted(f.metadata, MetadataBytes), t2, goal, out.stream);
      w := w + Counted(f.metadata, MetadataBytes).value;
      r := UnwrittenTable(file.classes, "class_info");
      if r.Fail? {
        ThenFail(w, Missing(f.classes, "class_info"), t3, goal);
        return;
      }
      ThenPass(old(out.stream), w, Missing(f.classes, "class_info"), t3, goal, out.stream);
      w := w + Missing(f.classes, "class_info").value;
      r := UnwrittenTable(file.scripts, "script_info");
      if r.Fail? {
        ThenFail(w, Missing(f.scripts, "script_info"), Counted(f.bodies, MethodBodyBytes), goal);
        return;
      }
      ThenPass(old(out.stream), w, Missing(f.scripts, "script_info"), Counted(f.bodies, MethodBodyBytes),
               goal, out.stream);
      w := w + Missing(f.scripts, "script_info").value;
      r := BodyTable(file.methodBodies);
      if r.Pass? {
        LastPass(old(out.stream), w, Counted(f.bodies, MethodBodyBytes), goal, out.stream);
      }
    }

    /** `abcFile(file)`: the versions as `u16`, the pool, then the tables. */
    method AbcFileInfo(file: AbcFile) returns (r: Outcome)
      modifies out
      ensures r == Status(AbcFileBytes(file.Snapshot()))
      ensures r.Pass? ==> out.stream == old(out.stream) + AbcFileBytes(file.Snapshot()).value
    {
      ghost var f := file.Snapshot();
      ghost var goal := AbcFileBytes(f);
      ghost var t1 := Then(CpoolBytes(f.pool), TablesBytes(f));
      out.U16(file.minorVersion);
      out.U16(file.majorVersion);
      Concat(old(out.stream), LE(f.minor, 2), LE(f.major, 2), out.stream);
      ghost var w := LE(f.minor, 2) + LE(f.major, 2);
      FirstPass(Ok(w), t1, goal);
      r := CpoolInfo(file.constantPool);
      if r.Fail? {
        ThenFail(w, CpoolBytes(f.pool), TablesBytes(f), goal);
        return;
      }
      ThenPass(old(out.stream), w, CpoolBytes(f.pool), TablesBytes(f), goal, out.stream);
      w := w + CpoolBytes(f.pool).value;
      r := TablesInfo(file);
      if r.Pass? {
        LastPass(old(out.stream), w, TablesBytes(f), goal, out.stream);
      }
    }

    /** `toBytes()`: serialise the file after whatever the stream already holds, and
        return the whole stream. */
    method ToBytes() returns (r: Result<seq<byte>>)
      modifies out
      ensures r.Ok? <==> AbcFileBytes(abc.Snapshot()).Ok?
      ensures r.Err? ==> r.error == AbcFileBytes(abc.Snapshot()).error
      ensures r.Ok? ==> r.value == old(out.stream) + AbcFileBytes(abc.Snapshot()).value
    {
      var o := AbcFileInfo(abc);
      if o.Fail? {
        return Err(o.error);
      }
      var bytes := out.ToBytes();
      r := Ok(bytes);
    }

    /** `methodBuilder()`: a fresh method builder that interns into this file's pool. */
    method NewMethodBuilder() returns (mb: MethodBuilder)
      requires Valid()
      ensures fresh(mb) && fresh(mb.out) && mb.cpool == cpool && mb.Valid()
      ensures mb.Snapshot() == Asm([], [], map[], cpool.Snapshot())
    {
      mb := new MethodBuilder(abc.constantPool);
    }
  }
}
