/** The per-function assembler of abc.js: `Label` (abc.js:716-724) and `MethodBuilder`
    (abc.js:726-1362), which appends opcodes and operands to a byte stream, resolves branch
    displacements to placed labels at once and records a fixup for every other branch,
    patched by `applyFixups` when the bytes are taken. */
module Assembler {
  import opened Bytes
  import opened AbcStream
  import opened ConstantPool

  /** abc.js `Label`: addresses are kept in a `Map` keyed by the label object, so labels
      are told apart by identity, which `id` stands for. */
  datatype Label = Label(id: nat, name: string)

  /** The emitters that write one opcode byte and nothing else. */
  datatype FixedOp =
    | Add | AddI | BitAnd | BitNot | BitOr | BitXor | ConvertI | ConvertD | ConvertU
    | Decrement | DecrementI | Divide | Dup | Equals
    | GetLocal0 | GetLocal1 | GetLocal2 | GetLocal3
    | GreaterEquals | GreaterThan | Increment | IncrementI | LessEquals | LessThan | LShift
    | Modulo | Multiply | MultiplyI | Negate | NegateI | Nop | Not | Pop
    | PushFalse | PushNaN | PushNull | PushTrue | PushUndefined | ReturnValue | ReturnVoid
    | RShift | SetLocal0 | SetLocal1 | SetLocal2 | SetLocal3
    | StrictEquals | Subtract | SubtractI | Swap | Throw | URShift
    | Li8 | Li16 | Li32 | Lf32 | Lf64 | Si8 | Si16 | Si32 | Sf32 | Sf64 | Sxi1 | Sxi8 | Sxi16

  function FixedCode(op: FixedOp): byte
  {
    match op
    case Add => 0xa0          case AddI => 0xc5         case BitAnd => 0xa8
    case BitNot => 0x97       case BitOr => 0xa9        case BitXor => 0xaa
    case ConvertI => 0x73     case ConvertD => 0x75     case ConvertU => 0x74
    case Decrement => 0x93    case DecrementI => 0xc1   case Divide => 0xa3
    case Dup => 0x2a          case Equals => 0xab
    case GetLocal0 => 0xd0    case GetLocal1 => 0xd1    case GetLocal2 => 0xd2
    case GetLocal3 => 0xd3
    case GreaterEquals => 0xb0  case GreaterThan => 0xaf  case Increment => 0x91
    case IncrementI => 0xc0   case LessEquals => 0xae   case LessThan => 0xad
    case LShift => 0xa5       case Modulo => 0xa4       case Multiply => 0xa2
    case MultiplyI => 0xc7    case Negate => 0x90       case NegateI => 0xc4
    case Nop => 0x02          case Not => 0x96          case Pop => 0x29
    case PushFalse => 0x27    case PushNaN => 0x28      case PushNull => 0x20
    case PushTrue => 0x26     case PushUndefined => 0x21
    case ReturnValue => 0x48  case ReturnVoid => 0x47   case RShift => 0xa6
    case SetLocal0 => 0xd4    case SetLocal1 => 0xd5    case SetLocal2 => 0xd6
    case SetLocal3 => 0xd7
    case StrictEquals => 0xac case Subtract => 0xa1     case SubtractI => 0xc6
    case Swap => 0x2b         case Throw => 0x03        case URShift => 0xa7
    case Li8 => 0x35          case Li16 => 0x36         case Li32 => 0x37
    case Lf32 => 0x38         case Lf64 => 0x39
    case Si8 => 0x3a          case Si16 => 0x3b         case Si32 => 0x3c
    case Sf32 => 0x3d         case Sf64 => 0x3e
    case Sxi1 => 0x50         case Sxi8 => 0x51         case Sxi16 => 0x52
  }

  /** The emitters that write an opcode and one `u30` operand. */
  datatype IndexOp =
    | Call | DecLocal | DecLocalI | GetScopeObject | GetSlot | GetSuper | IncLocal
    | IncLocalI | Kill | NewArray | NewFunction | PushShort | SetSlot

  function IndexCode(op: IndexOp): byte
  {
    match op
    case Call => 0x41         case DecLocal => 0x94     case DecLocalI => 0xc3
    case GetScopeObject => 0x65  case GetSlot => 0x6c  case GetSuper => 0x04
    case IncLocal => 0x92     case IncLocalI => 0xc2    case Kill => 0x08
    case NewArray => 0x86     case NewFunction => 0x40  case PushShort => 0x2c
    case SetSlot => 0x6d
  }

  /** The emitters that write an opcode, an index and an argument count. */
  datatype CallOp = CallMethod | CallProperty | CallPropLex

  function CallCode(op: CallOp): byte
  {
    match op
    case CallMethod => 0x43  case CallProperty => 0x46  case CallPropLex => 0x4c
  }

  /** The emitters that write an opcode and a 3-byte displacement to a label. */
  datatype BranchOp =
    | IfEq | IfFalse | IfGe | IfGt | IfLe | IfLt | IfNge | IfNgt | IfNle | IfNlt | IfNe
    | IfStrictEq | IfStrictNe | IfTrue | Jump

  function BranchCode(op: BranchOp): byte
  {
    match op
    case IfEq => 0x13     case IfFalse => 0x12  case IfGe => 0x18     case IfGt => 0x17
    case IfLe => 0x16     case IfLt => 0x15     case IfNge => 0x0f    case IfNgt => 0x0e
    case IfNle => 0x0d    case IfNlt => 0x0c    case IfNe => 0x14
    case IfStrictEq => 0x19  case IfStrictNe => 0x1a  case IfTrue => 0x11  case Jump => 0x10
  }

  const GetLocalCode: byte := 0x62
  const SetLocalCode: byte := 0x63
  const PushByteCode: byte := 0x24
  const PushIntCode: byte := 0x2d
  const PushUintCode: byte := 0x2e
  const PushDoubleCode: byte := 0x2f
  const LabelCode: byte := 0x09
  const LookupSwitchCode: byte := 0x1b
  const GetPropertyCode: byte := 0x66

  /** One call of a `MethodBuilder` emitter. */
  datatype Instr =
    | Op(op: FixedOp)
    | GetLocal(local: int)
    | SetLocal(local: int)
    | WithIndex(iop: IndexOp, operand: int)
    | WithCall(cop: CallOp, index: int, argCount: int)
    | PushByte(value: int)
    | PushInt(value: int)
    | PushUint(value: int)
    | PushDouble(d: Double)
    | Branch(bop: BranchOp, target: Label)
    | Place(target: Label)
    | LookupSwitch(defaultTarget: Label, cases: seq<Label>)
    | GetProperty(m: Multiname)

  /** `{addr, label}`: addr is the stream length just after the 3-byte placeholder. */
  datatype Fixup = FixupAt(addr: nat, target: Label)

  /** Everything an emitter reads or changes: the stream, the fixup list, the label
      addresses and the shared constant pool. */
  datatype Asm = Asm(stream: seq<byte>, fixups: seq<Fixup>, addresses: map<Label, nat>, pool: Pool)

  /** The placeholders of the pending fixups lie inside the stream, in increasing order,
      and do not overlap. */
  predicate Spaced(stream: seq<byte>, fixups: seq<Fixup>)
  {
    && (forall k :: 0 <= k < |fixups| ==> 3 <= fixups[k].addr <= |stream|)
    && (forall k, m :: 0 <= k < m < |fixups| ==> fixups[k].addr + 3 <= fixups[m].addr)
  }

  predicate AsmValid(a: Asm)
  {
    Spaced(a.stream, a.fixups) && Sentinels(a.pool)
  }

  // ---------------------------------------------------------------- the emitters as functions

  function Put(a: Asm, bytes: seq<byte>): Asm
  {
    a.(stream := a.stream + bytes)
  }

  function PutU30(a: Asm, v: int): Result<Asm>
  {
    var bytes :- U30Bytes(v);
    Ok(Put(a, bytes))
  }

  /** `relativeAddress(label)`: a placed label gets its displacement from the end of the
      3-byte field at once; any other label gets a zero placeholder and a fixup. */
  function RelAddr(a: Asm, l: Label): Asm
  {
    var end := |a.stream| + 3;
    if l in a.addresses then Put(a, LE(a.addresses[l] - end, 3))
    else Put(a, LE(0, 3)).(fixups := a.fixups + [FixupAt(end, l)])
  }

  /** `relativeAddress` for each label in turn. */
  function RelAddrs(a: Asm, ls: seq<Label>): Asm
    decreases |ls|
  {
    if ls == [] then a else RelAddrs(RelAddr(a, ls[0]), ls[1..])
  }

  /** `getlocal(index)` and `setlocal(index)`: the one-byte forms for 0..3. */
  function LocalAccess(a: Asm, n: int, short: byte, long: byte): Result<Asm>
    requires short <= 0xfc
  {
    if 0 <= n <= 3 then Ok(Put(a, [short + n])) else PutU30(Put(a, [long]), n)
  }

  function Encode(a: Asm, i: Instr): Result<Asm>
  {
    match i
    case Op(op) => Ok(Put(a, [FixedCode(op)]))
    case GetLocal(n) => LocalAccess(a, n, 0xd0, GetLocalCode)
    case SetLocal(n) => LocalAccess(a, n, 0xd4, SetLocalCode)
    case WithIndex(op, n) => PutU30(Put(a, [IndexCode(op)]), n)
    case WithCall(op, n, argc) => EncodeCall(a, op, n, argc)
    case PushByte(v) => Ok(Put(a, [PushByteCode, v % 256]))
    case PushInt(v) => PushInterned(a, InternInteger(a.pool, v), PushIntCode)
    case PushUint(v) => PushInterned(a, InternUinteger(a.pool, v), PushUintCode)
    case PushDouble(d) => PushInterned(a, InternDouble(a.pool, d), PushDoubleCode)
    case Branch(op, l) => Ok(RelAddr(Put(a, [BranchCode(op)]), l))
    case Place(l) => Ok(Put(a.(addresses := a.addresses[l := |a.stream|]), [LabelCode]))
    case LookupSwitch(d, cases) => EncodeSwitch(a, d, cases)
    case GetProperty(_) => Err(TypeError("this.cpool.addMultiname is not a function"))
  }

  /** `pushint`, `pushuint`, `pushdouble`: the pool entry's index after the opcode. */
  function PushInterned(a: Asm, entry: (nat, Pool), code: byte): Result<Asm>
  {
    PutU30(Put(a.(pool := entry.1), [code]), entry.0)
  }

  /** `lookupswitch`: opcode, default displacement, case count, case displacements. */
  function EncodeSwitch(a: Asm, d: Label, cases: seq<Label>): Result<Asm>
  {
    var b :- PutU30(RelAddr(Put(a, [LookupSwitchCode]), d), |cases|);
    Ok(RelAddrs(b, cases))
  }

  /** `callmethod` and its kin: opcode, index, argument count. */
  function EncodeCall(a: Asm, op: CallOp, n: int, argc: int): Result<Asm>
  {
    var b :- PutU30(Put(a, [CallCode(op)]), n);
    PutU30(b, argc)
  }

  /** The emitters called in order; the first throw ends the sequence. */
  function EncodeAll(a: Asm, code: seq<Instr>): Result<Asm>
    decreases |code|
  {
    if code == [] then Ok(a)
    else
      var b :- Encode(a, code[0]);
      EncodeAll(b, code[1..])
  }

  /** The 3 bytes of one fixup rewritten with the little-endian displacement. */
  function Patch3(s: seq<byte>, addr: nat, rel: int): (r: seq<byte>)
    requires 3 <= addr <= |s|
    ensures |r| == |s|
  {
    var b := LE(rel, 3);
    s[addr - 3 := b[0]][addr - 2 := b[1]][addr - 1 := b[2]]
  }

  /** `applyFixups` from the i-th fixup on: each fixup in order; one whose label was never
      placed throws. */
  function PatchFrom(s: seq<byte>, fixups: seq<Fixup>, addresses: map<Label, nat>, i: nat): (r: Result<seq<byte>>)
    requires Spaced(s, fixups) && i <= |fixups|
    ensures r.Ok? ==> |r.value| == |s|
    decreases |fixups| - i
  {
    if i == |fixups| then Ok(s)
    else
      var f := fixups[i];
      if f.target !in addresses then Err(UnresolvedFixup)
      else PatchFrom(Patch3(s, f.addr, addresses[f.target] - f.addr), fixups, addresses, i + 1)
  }

  function PatchAll(s: seq<byte>, fixups: seq<Fixup>, addresses: map<Label, nat>): (r: Result<seq<byte>>)
    requires Spaced(s, fixups)
    ensures r.Ok? ==> |r.value| == |s|
  {
    PatchFrom(s, fixups, addresses, 0)
  }

  // ---------------------------------------------------------------- properties

  /** After `relativeAddress(L)` the stream is 3 bytes longer; a placed label's bytes hold
      its displacement from the end of the field, an unplaced one's are zero with one
      fixup at the end of the field added. */
  lemma RelAddrFacts(a: Asm, l: Label)
    ensures var b := RelAddr(a, l);
      && b.stream[..|a.stream|] == a.stream && |b.stream| == |a.stream| + 3
      && b.addresses == a.addresses && b.pool == a.pool
      && (l in a.addresses ==>
            b.stream[|a.stream|..] == LE(a.addresses[l] - (|a.stream| + 3), 3) && b.fixups == a.fixups)
      && (l !in a.addresses ==>
            b.stream[|a.stream|..] == [0, 0, 0] && b.fixups == a.fixups + [FixupAt(|a.stream| + 3, l)])
  {
    var b := RelAddr(a, l);
    assert b.stream[|a.stream|..] == (if l in a.addresses then LE(a.addresses[l] - (|a.stream| + 3), 3) else LE(0, 3));
  }

  /** `label(L)` records the position of the 0x09 byte it then writes. */
  lemma PlaceFacts(a: Asm, l: Label)
    ensures Encode(a, Place(l)).Ok?
    ensures var b := Encode(a, Place(l)).value;
      b.addresses[l] == |a.stream| && b.stream == a.stream + [0x09] &&
      b.stream[b.addresses[l]] == LabelCode && b.fixups == a.fixups
  {
  }

  /** `getlocal(i)`: one byte 0xd0 + i for i in 0..3, else 0x62 and `u30(i)`. */
  lemma GetLocalBytes(a: Asm, n: int)
    ensures 0 <= n <= 3 ==> Encode(a, GetLocal(n)) == Ok(Put(a, [0xd0 + n]))
    ensures (n < 0 || 3 < n) && n < U30Limit ==> Encode(a, GetLocal(n)) == Ok(Put(a, [0x62] + U32Bytes(n)))
    ensures n >= U30Limit ==> Encode(a, GetLocal(n)) == Err(RangeError)
  {
    assert Put(Put(a, [0x62]), U32Bytes(n)) == Put(a, [0x62] + U32Bytes(n));
  }

  /** `setlocal(i)`: one byte 0xd4 + i for i in 0..3, else 0x63 and `u30(i)`. */
  lemma SetLocalBytes(a: Asm, n: int)
    ensures 0 <= n <= 3 ==> Encode(a, SetLocal(n)) == Ok(Put(a, [0xd4 + n]))
    ensures (n < 0 || 3 < n) && n < U30Limit ==> Encode(a, SetLocal(n)) == Ok(Put(a, [0x63] + U32Bytes(n)))
    ensures n >= U30Limit ==> Encode(a, SetLocal(n)) == Err(RangeError)
  {
    assert Put(Put(a, [0x63]), U32Bytes(n)) == Put(a, [0x63] + U32Bytes(n));
  }

  lemma {:induction false} RelAddrsKeeps(a: Asm, ls: seq<Label>)
    requires Spaced(a.stream, a.fixups)
    ensures var b := RelAddrs(a, ls);
      && Spaced(b.stream, b.fixups) && a.stream <= b.stream && a.fixups <= b.fixups
      && b.addresses == a.addresses && b.pool == a.pool
    decreases |ls|
  {
    if ls != [] {
      RelAddrKeeps(a, ls[0]);
      RelAddrsKeeps(RelAddr(a, ls[0]), ls[1..]);
    }
  }

  lemma RelAddrKeeps(a: Asm, l: Label)
    requires Spaced(a.stream, a.fixups)
    ensures var b := RelAddr(a, l);
      && Spaced(b.stream, b.fixups) && a.stream <= b.stream && a.fixups <= b.fixups
      && b.addresses == a.addresses && b.pool == a.pool
  {
    RelAddrFacts(a, l);
  }

  lemma PutKeeps(a: Asm, bytes: seq<byte>)
    requires Spaced(a.stream, a.fixups)
    ensures Spaced(Put(a, bytes).stream, Put(a, bytes).fixups) && a.stream <= Put(a, bytes).stream
  {
  }

  lemma PutU30Keeps(a: Asm, v: int)
    requires Spaced(a.stream, a.fixups) && PutU30(a, v).Ok?
    ensures var b := PutU30(a, v).value;
      Spaced(b.stream, b.fixups) && a.stream <= b.stream && b.fixups == a.fixups && b.pool == a.pool
  {
    PutKeeps(a, U32Bytes(v));
  }

  /** Appending without touching the pool keeps everything `EmitKeeps` promises. */
  predicate Grows(a: Asm, b: Asm)
  {
    AsmValid(b) && a.stream <= b.stream && a.fixups <= b.fixups && Extends(a.pool, b.pool)
  }

  lemma SamePoolGrows(a: Asm, b: Asm)
    requires AsmValid(a) && Spaced(b.stream, b.fixups) && b.pool == a.pool
    requires a.stream <= b.stream && a.fixups <= b.fixups
    ensures Grows(a, b)
  {
  }

  lemma PutGrows(a: Asm, bytes: seq<byte>)
    requires AsmValid(a)
    ensures Grows(a, Put(a, bytes))
  {
    PutKeeps(a, bytes);
  }

  lemma IndexKeeps(a: Asm, op: IndexOp, n: int)
    requires AsmValid(a) && Encode(a, WithIndex(op, n)).Ok?
    ensures Grows(a, Encode(a, WithIndex(op, n)).value)
  {
    PutKeeps(a, [IndexCode(op)]);
    PutU30Keeps(Put(a, [IndexCode(op)]), n);
  }

  lemma BranchKeeps(a: Asm, op: BranchOp, l: Label)
    requires AsmValid(a)
    ensures Grows(a, RelAddr(Put(a, [BranchCode(op)]), l))
  {
    PutKeeps(a, [BranchCode(op)]);
    RelAddrKeeps(Put(a, [BranchCode(op)]), l);
  }

  lemma LocalAccessKeeps(a: Asm, n: int, short: byte, long: byte)
    requires AsmValid(a) && short <= 0xfc && LocalAccess(a, n, short, long).Ok?
    ensures Grows(a, LocalAccess(a, n, short, long).value)
  {
    if 0 <= n <= 3 {
      PutKeeps(a, [short + n]);
      SamePoolGrows(a, Put(a, [short + n]));
    } else {
      PutKeeps(a, [long]);
      PutU30Keeps(Put(a, [long]), n);
      SamePoolGrows(a, PutU30(Put(a, [long]), n).value);
    }
  }

  lemma CallKeeps(a: Asm, op: CallOp, n: int, argc: int)
    requires AsmValid(a) && Encode(a, WithCall(op, n, argc)).Ok?
    ensures Grows(a, Encode(a, WithCall(op, n, argc)).value)
  {
    var a1 := Put(a, [CallCode(op)]);
    PutKeeps(a, [CallCode(op)]);
    PutU30Keeps(a1, n);
    PutU30Keeps(PutU30(a1, n).value, argc);
    SamePoolGrows(a, Encode(a, WithCall(op, n, argc)).value);
  }

  /** The three pool-backed pushes: intern, write the opcode, write the index. */
  lemma InternedKeeps(a: Asm, entry: (nat, Pool), code: byte)
    requires AsmValid(a) && Sentinels(entry.1) && Extends(a.pool, entry.1)
    requires PushInterned(a, entry, code).Ok?
    ensures Grows(a, PushInterned(a, entry, code).value)
  {
    PutU30Keeps(Put(a.(pool := entry.1), [code]), entry.0);
  }

  lemma SwitchKeeps(a: Asm, d: Label, cases: seq<Label>)
    requires AsmValid(a) && Encode(a, LookupSwitch(d, cases)).Ok?
    ensures Grows(a, Encode(a, LookupSwitch(d, cases)).value)
  {
    var a1 := Put(a, [LookupSwitchCode]);
    PutKeeps(a, [LookupSwitchCode]);
    RelAddrKeeps(a1, d);
    var b := PutU30(RelAddr(a1, d), |cases|).value;
    PutU30Keeps(RelAddr(a1, d), |cases|);
    RelAddrsKeeps(b, cases);
    SamePoolGrows(a, RelAddrs(b, cases));
  }

  /** Every emitter appends to the stream and to the fixup list, keeps the fixups spaced
      and the pool's sentinels, and only ever appends to the pool. */
  lemma EmitKeeps(a: Asm, i: Instr)
    requires AsmValid(a) && Encode(a, i).Ok?
    ensures Grows(a, Encode(a, i).value)
  {
    if i.PushInt? || i.PushUint? || i.PushDouble? || i.Branch? || i.LookupSwitch? {
      EmitKeepsAddressed(a, i);
    } else {
      EmitKeepsPlain(a, i);
    }
  }

  /** The emitters that neither intern nor take a displacement. */
  lemma EmitKeepsPlain(a: Asm, i: Instr)
    requires AsmValid(a) && Encode(a, i).Ok?
    requires !(i.PushInt? || i.PushUint? || i.PushDouble? || i.Branch? || i.LookupSwitch?)
    ensures Grows(a, Encode(a, i).value)
  {
    match i
    case Op(op) => PutGrows(a, [FixedCode(op)]);
    case GetLocal(n) => LocalAccessKeeps(a, n, 0xd0, GetLocalCode);
    case SetLocal(n) => LocalAccessKeeps(a, n, 0xd4, SetLocalCode);
    case WithIndex(op, n) => IndexKeeps(a, op, n);
    case WithCall(op, n, argc) => CallKeeps(a, op, n, argc);
    case PushByte(v) => PutGrows(a, [PushByteCode, v % 256]);
    case Place(l) => PutGrows(a.(addresses := a.addresses[l := |a.stream|]), [LabelCode]);
    case GetProperty(_) =>
  }

  /** The emitters that intern a constant or write a displacement. */
  lemma EmitKeepsAddressed(a: Asm, i: Instr)
    requires AsmValid(a) && Encode(a, i).Ok?
    requires i.PushInt? || i.PushUint? || i.PushDouble? || i.Branch? || i.LookupSwitch?
    ensures Grows(a, Encode(a, i).value)
  {
    match i
    case PushInt(v) =>
      InternIntegerFacts(a.pool, v);
      InternedKeeps(a, InternInteger(a.pool, v), PushIntCode);
    case PushUint(v) =>
      InternUintegerFacts(a.pool, v);
      InternedKeeps(a, InternUinteger(a.pool, v), PushUintCode);
    case PushDouble(d) =>
      InternDoubleFacts(a.pool, d);
      InternedKeeps(a, InternDouble(a.pool, d), PushDoubleCode);
    case Branch(op, l) => BranchKeeps(a, op, l);
    case LookupSwitch(d, cases) => SwitchKeeps(a, d, cases);
  }

  lemma {:induction false} EmitAllKeeps(a: Asm, code: seq<Instr>)
    requires AsmValid(a) && EncodeAll(a, code).Ok?
    ensures Grows(a, EncodeAll(a, code).value)
    decreases |code|
  {
    if code != [] {
      EmitKeeps(a, code[0]);
      EmitAllKeeps(Encode(a, code[0]).value, code[1..]);
    }
  }

  /** Emitting a concatenation is emitting one part after the other. */
  lemma {:induction false} EmitAllAppend(a: Asm, c1: seq<Instr>, c2: seq<Instr>)
    ensures EncodeAll(a, c1 + c2) ==
      (match EncodeAll(a, c1) case Ok(b) => EncodeAll(b, c2) case Err(e) => Err(e))
    decreases |c1|
  {
    if c1 == [] {
      assert c1 + c2 == c2;
    } else {
      assert (c1 + c2)[0] == c1[0] && (c1 + c2)[1..] == c1[1..] + c2;
      if Encode(a, c1[0]).Ok? {
        EmitAllAppend(Encode(a, c1[0]).value, c1[1..], c2);
      }
    }
  }

  /** j lies in the placeholder of some fixup from the i-th on. */
  predicate InFieldFrom(j: int, fixups: seq<Fixup>, i: nat)
  {
    exists k :: i <= k < |fixups| && fixups[k].addr - 3 <= j < fixups[k].addr
  }

  predicate InField(j: int, fixups: seq<Fixup>)
  {
    InFieldFrom(j, fixups, 0)
  }

  /** Every fixup from the i-th on names a placed label. */
  predicate ResolvedFrom(fixups: seq<Fixup>, addresses: map<Label, nat>, i: nat)
  {
    forall k :: i <= k < |fixups| ==> fixups[k].target in addresses
  }

  predicate Resolved(fixups: seq<Fixup>, addresses: map<Label, nat>)
  {
    ResolvedFrom(fixups, addresses, 0)
  }

  /** `applyFixups` throws exactly when some fixup's label was never placed. */
  lemma {:induction false} PatchFromThrows(s: seq<byte>, fixups: seq<Fixup>, addresses: map<Label, nat>, i: nat)
    requires Spaced(s, fixups) && i <= |fixups|
    ensures PatchFrom(s, fixups, addresses, i).Ok? <==> ResolvedFrom(fixups, addresses, i)
    decreases |fixups| - i
  {
    if i < |fixups| {
      var f := fixups[i];
      if f.target in addresses {
        PatchFromThrows(Patch3(s, f.addr, addresses[f.target] - f.addr), fixups, addresses, i + 1);
      }
    }
  }

  lemma PatchAllThrows(s: seq<byte>, fixups: seq<Fixup>, addresses: map<Label, nat>)
    requires Spaced(s, fixups)
    ensures PatchAll(s, fixups, addresses).Ok? <==> Resolved(fixups, addresses)
  {
    PatchFromThrows(s, fixups, addresses, 0);
  }

  /** Byte j of the displacement `addresses[label] - addr` of fixup k, little-endian. */
  function Patched(fixups: seq<Fixup>, addresses: map<Label, nat>, k: nat, j: nat): byte
    requires k < |fixups| && j < 3 && fixups[k].target in addresses
  {
    LE(addresses[fixups[k].target] - fixups[k].addr, 3)[j]
  }

  /** Every byte outside the placeholders of the later fixups keeps its value. */
  lemma {:induction false} PatchFromOutside(s: seq<byte>, fixups: seq<Fixup>, addresses: map<Label, nat>, i: nat, j: nat)
    requires Spaced(s, fixups) && i <= |fixups| && ResolvedFrom(fixups, addresses, i)
    requires j < |s| && !InFieldFrom(j, fixups, i)
    ensures PatchFrom(s, fixups, addresses, i).Ok? && PatchFrom(s, fixups, addresses, i).value[j] == s[j]
    decreases |fixups| - i
  {
    if i < |fixups| {
      var f := fixups[i];
      var s' := Patch3(s, f.addr, addresses[f.target] - f.addr);
      assert !(f.addr - 3 <= j < f.addr);
      forall k | i + 1 <= k < |fixups| ensures !(fixups[k].addr - 3 <= j < fixups[k].addr) {
        assert !(i <= k < |fixups| && fixups[k].addr - 3 <= j < fixups[k].addr);
      }
      PatchFromOutside(s', fixups, addresses, i + 1, j);
    }
  }

  /** Byte j of fixup k's placeholder ends up holding byte j of its displacement. */
  lemma {:induction false} PatchFromField(s: seq<byte>, fixups: seq<Fixup>, addresses: map<Label, nat>, i: nat, k: nat, j: nat)
    requires Spaced(s, fixups) && i <= k < |fixups| && ResolvedFrom(fixups, addresses, i) && j < 3
    ensures PatchFrom(s, fixups, addresses, i).Ok?
    ensures PatchFrom(s, fixups, addresses, i).value[fixups[k].addr - 3 + j] == Patched(fixups, addresses, k, j)
    decreases |fixups| - i
  {
    var f := fixups[i];
    var s' := Patch3(s, f.addr, addresses[f.target] - f.addr);
    if k == i {
      var p := f.addr - 3 + j;
      assert s'[p] == Patched(fixups, addresses, k, j);
      forall m | i + 1 <= m < |fixups| ensures !(fixups[m].addr - 3 <= p < fixups[m].addr) {
        assert fixups[i].addr + 3 <= fixups[m].addr;
      }
      PatchFromOutside(s', fixups, addresses, i + 1, p);
    } else {
      PatchFromField(s', fixups, addresses, i + 1, k, j);
    }
  }

  lemma PatchAllFields(s: seq<byte>, fixups: seq<Fixup>, addresses: map<Label, nat>)
    requires Spaced(s, fixups) && Resolved(fixups, addresses)
    ensures PatchAll(s, fixups, addresses).Ok?
    ensures var r := PatchAll(s, fixups, addresses).value;
      forall k, j :: 0 <= k < |fixups| && 0 <= j < 3 ==> r[fixups[k].addr - 3 + j] == Patched(fixups, addresses, k, j)
  {
    PatchAllThrows(s, fixups, addresses);
    forall k, j | 0 <= k < |fixups| && 0 <= j < 3
      ensures PatchAll(s, fixups, addresses).value[fixups[k].addr - 3 + j] == Patched(fixups, addresses, k, j)
    {
      PatchFromField(s, fixups, addresses, 0, k, j);
    }
  }

  /** `applyFixups` when every label is placed: the stream keeps its length, each
      placeholder holds `addresses[label] - addr` modulo 2^24, and no other byte changes. */
  lemma PatchAllFacts(s: seq<byte>, fixups: seq<Fixup>, addresses: map<Label, nat>)
    requires Spaced(s, fixups) && Resolved(fixups, addresses)
    ensures PatchAll(s, fixups, addresses).Ok?
    ensures var r := PatchAll(s, fixups, addresses).value;
      && |r| == |s|
      && (forall k, j :: 0 <= k < |fixups| && 0 <= j < 3 ==> r[fixups[k].addr - 3 + j] == Patched(fixups, addresses, k, j))
      && (forall j :: 0 <= j < |s| && !InField(j, fixups) ==> r[j] == s[j])
  {
    PatchAllFields(s, fixups, addresses);
    var r := PatchAll(s, fixups, addresses).value;
    forall j | 0 <= j < |s| && !InField(j, fixups) ensures r[j] == s[j] {
      PatchFromOutside(s, fixups, addresses, 0, j);
    }
  }

  // ---------------------------------------------------------------- getproperty

  /** `getproperty` as evidently intended: the multiname interned with the pool's
      `multiname`, then 0x66 and the entry's index. */
  function EncodeGetPropertyIntended(a: Asm, m: Multiname): Result<Asm>
  {
    PushInterned(a, InternMultiname(a.pool, m), GetPropertyCode)
  }

  /** As written every `getproperty` throws; as intended it succeeds exactly when the
      entry's index fits a `u30`, and then it appends 0x66 and the index of an entry
      equal to m and keeps every earlier stream byte, fixup and pool entry. */
  lemma GetPropertyIntendedFacts(a: Asm, m: Multiname)
    requires AsmValid(a)
    ensures Encode(a, GetProperty(m)).Err?
    ensures var (i, q) := InternMultiname(a.pool, m);
      var r := EncodeGetPropertyIntended(a, m);
      && (r.Ok? <==> i < U30Limit)
      && (r.Ok? ==> && r.value.stream == a.stream + [GetPropertyCode] + U32Bytes(i)
                    && r.value.pool == q && MultinameEquals(q.multinames[i], m)
                    && Grows(a, r.value))
  {
    InternMultinameFacts(a.pool, m);
    var entry := InternMultiname(a.pool, m);
    if EncodeGetPropertyIntended(a, m).Ok? {
      InternedKeeps(a, entry, GetPropertyCode);
    }
  }

  // ---------------------------------------------------------------- lookupswitch

  /** What section "lookupswitch" of the AVM2 Overview asks for: every displacement is
      counted from the address of the opcode itself. */
  predicate SwitchAnchoredAtOpcode(a: Asm, d: Label, out: Asm)
    requires |out.stream| >= |a.stream| + 4
  {
    d in a.addresses ==> out.stream[|a.stream| + 1 .. |a.stream| + 4] == LE(a.addresses[d] - |a.stream|, 3)
  }

  /** As written, the default displacement of `lookupswitch` is counted from the end of
      its own field, 4 bytes after the opcode, the convention of the branch opcodes. */
  lemma LookupSwitchDefaultAnchor(a: Asm, d: Label, cases: seq<Label>)
    requires d in a.addresses && |cases| < U30Limit
    ensures EncodeSwitch(a, d, cases).Ok?
    ensures var out := EncodeSwitch(a, d, cases).value;
      |out.stream| >= |a.stream| + 4 &&
      out.stream[|a.stream| + 1 .. |a.stream| + 4] == LE(a.addresses[d] - (|a.stream| + 4), 3)
  {
    var n := |a.stream|;
    var a2 := RelAddr(Put(a, [LookupSwitchCode]), d);
    SwitchPrefix(a, d, cases);
    RelAddrFacts(Put(a, [LookupSwitchCode]), d);
    PrefixSlice(a2.stream, EncodeSwitch(a, d, cases).value.stream, n + 1, n + 4);
  }

  /** Everything `lookupswitch` writes after its default field extends that field. */
  lemma SwitchPrefix(a: Asm, d: Label, cases: seq<Label>)
    requires |cases| < U30Limit
    ensures EncodeSwitch(a, d, cases).Ok?
    ensures RelAddr(Put(a, [LookupSwitchCode]), d).stream <= EncodeSwitch(a, d, cases).value.stream
  {
    var a2 := RelAddr(Put(a, [LookupSwitchCode]), d);
    PutU30Appends(a2, |cases|);
    var b := PutU30(a2, |cases|).value;
    RelAddrsLength(b, cases);
    assert EncodeSwitch(a, d, cases) == Ok(RelAddrs(b, cases));
  }

  /** `u30(v)` below 2^30 appends to the stream and changes nothing else. */
  lemma PutU30Appends(a: Asm, v: int)
    requires v < U30Limit
    ensures PutU30(a, v).Ok? && a.stream <= PutU30(a, v).value.stream
  {
  }

  lemma PrefixSlice(x: seq<byte>, y: seq<byte>, i: nat, j: nat)
    requires x <= y && i <= j <= |x|
    ensures y[i..j] == x[i..j]
  {
  }

  /** So a label placed at the opcode's own address (a switch whose default is itself)
      gets the displacement -4 rather than 0, and the intended anchoring fails. */
  lemma LookupSwitchMisanchored(a: Asm, d: Label)
    requires a.addresses == map[d := |a.stream|]
    ensures EncodeSwitch(a, d, []).Ok?
    ensures var out := EncodeSwitch(a, d, []).value;
      |out.stream| >= |a.stream| + 4 && !SwitchAnchoredAtOpcode(a, d, out)
  {
    LookupSwitchDefaultAnchor(a, d, []);
    var x, y := LE(-4, 3), LE(0, 3);
    assert x[0] == 252 && y[0] == 0;
  }

  /** The case-count field holds the number of case labels, one more than the
      `case_count` of the AVM2 Overview, which is followed by case_count + 1 offsets. */
  lemma LookupSwitchCountField(a: Asm, d: Label, cases: seq<Label>)
    requires |cases| < U30Limit
    ensures EncodeSwitch(a, d, cases).Ok?
    ensures var out := EncodeSwitch(a, d, cases).value;
      |out.stream| == |a.stream| + 4 + |U32Bytes(|cases|)| + 3 * |cases| &&
      out.stream[|a.stream| + 4 .. |a.stream| + 4 + |U32Bytes(|cases|)|] == U32Bytes(|cases|)
  {
    var n := |a.stream|;
    var a1 := Put(a, [LookupSwitchCode]);
    var a2 := RelAddr(a1, d);
    RelAddrFacts(a1, d);
    var b := PutU30(a2, |cases|).value;
    assert b.stream == a2.stream + U32Bytes(|cases|);
    RelAddrsLength(b, cases);
    var out := RelAddrs(b, cases);
    assert EncodeSwitch(a, d, cases) == Ok(out);
    PrefixSlice(b.stream, out.stream, n + 4, n + 4 + |U32Bytes(|cases|)|);
  }

  /** The targets of a switch as section "lookupswitch" of the AVM2 Overview lays them out:
      the case labels, or the default alone when there are none, which sends every
      index to the default as an empty case list would. */
  function SwitchTargets(d: Label, cases: seq<Label>): (r: seq<Label>)
    ensures |r| >= 1
  {
    if cases == [] then [d] else cases
  }

  /** One 3-byte displacement per label, each counted from `base`. */
  function OffsetsFrom(base: int, addresses: map<Label, nat>, ls: seq<Label>): (r: seq<byte>)
    requires forall k :: 0 <= k < |ls| ==> ls[k] in addresses
    ensures |r| == 3 * |ls|
  {
    Flatten3(seq(|ls|, k requires 0 <= k < |ls| => LE(addresses[ls[k]] - base, 3)))
  }

  /** Fields of three elements each, written one after another. */
  function Flatten3<T>(fields: seq<seq<T>>): (r: seq<T>)
    requires forall k :: 0 <= k < |fields| ==> |fields[k]| == 3
    ensures |r| == 3 * |fields|
  {
    if fields == [] then [] else fields[0] + Flatten3(fields[1..])
  }

  /** The k-th three elements of `Flatten3` are the k-th field. */
  lemma {:induction false} Flatten3Field<T>(fields: seq<seq<T>>, k: nat)
    requires forall i :: 0 <= i < |fields| ==> |fields[i]| == 3
    requires k < |fields|
    ensures Flatten3(fields)[3 * k .. 3 * k + 3] == fields[k]
  {
    var tail := Flatten3(fields[1..]);
    if k == 0 {
      SliceOfConcat(fields[0], tail, 0, 3);
    } else {
      Flatten3Field(fields[1..], k - 1);
      SliceOfConcat(fields[0], tail, 3 * k, 3 * k + 3);
    }
  }

  /** The k-th 3-byte field of `OffsetsFrom` is the displacement of the k-th label. */
  lemma OffsetsFromField(base: int, addresses: map<Label, nat>, ls: seq<Label>, k: nat)
    requires forall i :: 0 <= i < |ls| ==> ls[i] in addresses
    requires k < |ls|
    ensures OffsetsFrom(base, addresses, ls)[3 * k .. 3 * k + 3] == LE(addresses[ls[k]] - base, 3)
  {
    var fields := seq(|ls|, j requires 0 <= j < |ls| => LE(addresses[ls[j]] - base, 3));
    Flatten3Field(fields, k);
  }

  /** A slice of x + y that lies within x or within y is the same slice of that part. */
  lemma SliceOfConcat<T>(x: seq<T>, y: seq<T>, i: nat, j: nat)
    requires i <= j <= |x| + |y| && (j <= |x| || |x| <= i)
    ensures j <= |x| ==> (x + y)[i..j] == x[i..j]
    ensures |x| <= i ==> (x + y)[i..j] == y[i - |x| .. j - |x|]
  {
  }

  /** The fields of intended `lookupswitch` before the case offsets, for an opcode at
      address `base` and `n` case offsets: the opcode, the default displacement counted
      from the opcode's address, and `case_count`, one less than the number of offsets. */
  function SwitchIntendedHeader(base: int, target: int, n: int): (r: seq<byte>)
    ensures |r| == 4 + |U32Bytes(n - 1)|
  {
    [LookupSwitchCode] + LE(target - base, 3) + U32Bytes(n - 1)
  }

  /** The bytes of `lookupswitch` as evidently intended, for labels whose addresses are
      known: the header, then one displacement per target counted from the opcode. */
  function SwitchIntendedBytes(base: int, addresses: map<Label, nat>, d: Label, cases: seq<Label>): (r: seq<byte>)
    requires d in addresses && forall k :: 0 <= k < |cases| ==> cases[k] in addresses
    ensures |r| >= 4
  {
    var ts := SwitchTargets(d, cases);
    SwitchIntendedHeader(base, addresses[d], |ts|) + OffsetsFrom(base, addresses, ts)
  }

  /** The intended `lookupswitch` on the assembler state: a count beyond `u30` throws as
      `u30` does, otherwise the bytes are appended. */
  function EncodeSwitchIntended(a: Asm, d: Label, cases: seq<Label>): (r: Result<Asm>)
    requires d in a.addresses && forall k :: 0 <= k < |cases| ==> cases[k] in a.addresses
  {
    var _ :- U30Bytes(|SwitchTargets(d, cases)| - 1);
    Ok(Put(a, SwitchIntendedBytes(|a.stream|, a.addresses, d, cases)))
  }

  /** The intended bytes open with the AVM2 header: the opcode, the default displacement
      counted from the opcode, then the count field holding `case_count`, one less than
      the number of case offsets, which fill the rest. */
  lemma SwitchHeaderFields(base: int, addresses: map<Label, nat>, d: Label, cases: seq<Label>)
    requires d in addresses && forall i :: 0 <= i < |cases| ==> cases[i] in addresses
    ensures var b, ts := SwitchIntendedBytes(base, addresses, d, cases), SwitchTargets(d, cases);
      var h := SwitchIntendedHeader(base, addresses[d], |ts|);
      && |b| == |h| + 3 * |ts|
      && b[0] == LookupSwitchCode
      && b[1..4] == LE(addresses[d] - base, 3)
      && b[4 .. |h|] == U32Bytes(|ts| - 1)
  {
    var ts := SwitchTargets(d, cases);
    var h := SwitchIntendedHeader(base, addresses[d], |ts|);
    var offs := OffsetsFrom(base, addresses, ts);
    SwitchIntendedSplit(base, addresses, d, cases);
    HeaderFields(base, addresses[d], |ts|);
    SliceOfConcat(h, offs, 1, 4);
    SliceOfConcat(h, offs, 4, |h|);
  }

  lemma HeaderFields(base: int, target: int, n: int)
    ensures var h := SwitchIntendedHeader(base, target, n);
      && h[0] == LookupSwitchCode && h[1..4] == LE(target - base, 3) && h[4..] == U32Bytes(n - 1)
  {
    var x := [LookupSwitchCode] + LE(target - base, 3);
    SliceOfConcat(x, U32Bytes(n - 1), 4, |x| + |U32Bytes(n - 1)|);
    SliceOfConcat(x, U32Bytes(n - 1), 1, 4);
    SliceOfConcat([LookupSwitchCode], LE(target - base, 3), 1, 4);
  }

  /** The k-th case offset of the intended bytes is the displacement of the k-th target
      from the opcode. */
  lemma SwitchIntendedCase(base: int, addresses: map<Label, nat>, d: Label, cases: seq<Label>, k: nat)
    requires d in addresses && forall i :: 0 <= i < |cases| ==> cases[i] in addresses
    requires k < |SwitchTargets(d, cases)|
    ensures var b, ts := SwitchIntendedBytes(base, addresses, d, cases), SwitchTargets(d, cases);
      var h := SwitchIntendedHeader(base, addresses[d], |ts|);
      b[|h| + 3 * k .. |h| + 3 * k + 3] == LE(addresses[ts[k]] - base, 3)
  {
    var ts := SwitchTargets(d, cases);
    var h := SwitchIntendedHeader(base, addresses[d], |ts|);
    SwitchIntendedSplit(base, addresses, d, cases);
    OffsetAfter(base, addresses, h, ts, k);
  }

  lemma SwitchIntendedSplit(base: int, addresses: map<Label, nat>, d: Label, cases: seq<Label>)
    requires d in addresses && forall i :: 0 <= i < |cases| ==> cases[i] in addresses
    ensures forall i :: 0 <= i < |SwitchTargets(d, cases)| ==> SwitchTargets(d, cases)[i] in addresses
    ensures SwitchIntendedBytes(base, addresses, d, cases)
      == SwitchIntendedHeader(base, addresses[d], |SwitchTargets(d, cases)|)
         + OffsetsFrom(base, addresses, SwitchTargets(d, cases))
  {
  }

  /** Behind any header h, the k-th 3-byte field of the offsets is the k-th label's. */
  lemma OffsetAfter(base: int, addresses: map<Label, nat>, h: seq<byte>, ls: seq<Label>, k: nat)
    requires forall i :: 0 <= i < |ls| ==> ls[i] in addresses
    requires k < |ls|
    ensures (h + OffsetsFrom(base, addresses, ls))[|h| + 3 * k .. |h| + 3 * k + 3]
            == LE(addresses[ls[k]] - base, 3)
  {
    OffsetsFromField(base, addresses, ls, k);
    SliceOfConcat(h, OffsetsFrom(base, addresses, ls), |h| + 3 * k, |h| + 3 * k + 3);
  }

  /** On the assembler state, the intended encoding succeeds for any realistic number of
      cases, appends the intended bytes and anchors the default displacement at the
      opcode, which the encoding as written does not (`LookupSwitchMisanchored`). */
  lemma SwitchIntendedAnchored(a: Asm, d: Label, cases: seq<Label>)
    requires d in a.addresses && forall i :: 0 <= i < |cases| ==> cases[i] in a.addresses
    requires |cases| < U30Limit
    ensures EncodeSwitchIntended(a, d, cases).Ok?
    ensures var out := EncodeSwitchIntended(a, d, cases).value;
      && out.stream == a.stream + SwitchIntendedBytes(|a.stream|, a.addresses, d, cases)
      && |out.stream| >= |a.stream| + 4 && SwitchAnchoredAtOpcode(a, d, out)
  {
    var b := SwitchIntendedBytes(|a.stream|, a.addresses, d, cases);
    SwitchIntendedAppends(a, d, cases);
    SwitchHeaderFields(|a.stream|, a.addresses, d, cases);
    SliceOfConcat(a.stream, b, |a.stream| + 1, |a.stream| + 4);
  }

  lemma SwitchIntendedAppends(a: Asm, d: Label, cases: seq<Label>)
    requires d in a.addresses && forall i :: 0 <= i < |cases| ==> cases[i] in a.addresses
    requires |cases| < U30Limit
    ensures EncodeSwitchIntended(a, d, cases)
      == Ok(Put(a, SwitchIntendedBytes(|a.stream|, a.addresses, d, cases)))
  {
  }

  lemma {:induction false} RelAddrsLength(a: Asm, ls: seq<Label>)
    ensures |RelAddrs(a, ls).stream| == |a.stream| + 3 * |ls|
    ensures a.stream <= RelAddrs(a, ls).stream
    decreases |ls|
  {
    if ls != [] {
      RelAddrFacts(a, ls[0]);
      RelAddrsLength(RelAddr(a, ls[0]), ls[1..]);
    }
  }

  // ---------------------------------------------------------------- the class

  /** abc.js `MethodBuilder`: a `Builder` (here the object `out`) with the shared constant
      pool, a list of pending fixups and a map from labels to stream offsets. */
  class MethodBuilder {
    const out: Builder
    const cpool: CPool
    var fixups: seq<Fixup>
    var addresses: map<Label, nat>

    function Snapshot(): Asm
      reads this, out, cpool
    {
      Asm(out.stream, fixups, addresses, cpool.Snapshot())
    }

    predicate Valid()
      reads this, out, cpool
    {
      AsmValid(Snapshot())
    }

    constructor(pool: CPool)
      requires pool.Valid()
      ensures cpool == pool && fresh(out)
      ensures Snapshot() == Asm([], [], map[], pool.Snapshot()) && Valid()
    {
      out := new Builder();
      cpool := pool;
      fixups := [];
      addresses := map[];
    }

    /** The inherited `u8`. */
    method U8(v: int)
      requires Valid()
      modifies out
      ensures Snapshot() == Put(old(Snapshot()), [v % 256]) && Valid()
    {
      PutKeeps(Snapshot(), [v % 256]);
      out.U8(v);
    }

    /** `u8` of an opcode, which is already a byte. */
    method Code(c: byte)
      requires Valid()
      modifies out
      ensures Snapshot() == Put(old(Snapshot()), [c]) && Valid()
    {
      U8(c);
      assert c % 256 == c;
    }

    method U30(v: int) returns (r: Outcome)
      requires Valid()
      modifies out
      ensures r == Status(PutU30(old(Snapshot()), v))
      ensures r.Pass? ==> Snapshot() == PutU30(old(Snapshot()), v).value
      ensures Valid() && old(out.stream) <= out.stream
    {
      r := out.U30(v);
    }

    /** `fixup(label)`: a zero placeholder, then the fixup at the new end of stream. */
    method Fixup(l: Label)
      requires Valid() && l !in addresses
      modifies this, out
      ensures Snapshot() == RelAddr(old(Snapshot()), l) && Valid()
    {
      ghost var a0 := Snapshot();
      RelAddrKeeps(a0, l);
      out.S24(0);
      fixups := fixups + [FixupAt(|out.stream|, l)];
      assert Snapshot() == Put(a0, LE(0, 3)).(fixups := a0.fixups + [FixupAt(|a0.stream| + 3, l)]);
    }

    method RelativeAddress(l: Label)
      requires Valid()
      modifies this, out
      ensures Snapshot() == RelAddr(old(Snapshot()), l) && Valid()
    {
      if l in addresses {
        Displacement(l);
      } else {
        Fixup(l);
      }
    }

    /** The first branch of `relativeAddress`: the displacement of a placed label from
        the end of the 3-byte field. */
    method Displacement(l: Label)
      requires Valid() && l in addresses
      modifies out
      ensures Snapshot() == RelAddr(old(Snapshot()), l) && Valid()
    {
      ghost var a0 := Snapshot();
      ghost var pool := cpool.Snapshot();
      var addr := |out.stream| + 3;
      ghost var a1 := Put(a0, LE(addresses[l] - addr, 3));
      assert RelAddr(a0, l) == a1 && AsmValid(a1) by {
        RelAddrKeeps(a0, l);
      }
      out.S24(addresses[l] - addr);
      assert cpool.Snapshot() == pool;
      assert Snapshot() == a1;
    }

    /** `applyFixups`: patch every pending fixup in place, then clear the list. */
    method ApplyFixups() returns (r: Outcome)
      requires Valid()
      modifies this, out
      ensures r == Status(PatchAll(old(out.stream), old(fixups), addresses))
      ensures r.Pass? ==> out.stream == PatchAll(old(out.stream), old(fixups), addresses).value
                          && fixups == [] && Valid()
      ensures addresses == old(addresses)
    {
      var fs, places := fixups, addresses;
      ghost var goal := PatchAll(out.stream, fs, places);
      var i := 0;
      while i < |fs|
        invariant 0 <= i <= |fs| && Spaced(out.stream, fs)
        invariant PatchFrom(out.stream, fs, places, i) == goal
        invariant fixups == fs && addresses == places
      {
        var f := fs[i];
        if f.target !in places {
          assert goal == Err(UnresolvedFixup);
          return Fail(UnresolvedFixup);
        }
        ghost var before := out.stream;
        PatchField(f.addr, places[f.target] - f.addr);
        PatchLoopStep(before, out.stream, fs, places, i, goal);
        i := i + 1;
      }
      assert goal == Ok(out.stream);
      fixups := [];
      r := Pass;
    }

    /** The body of the `applyFixups` loop: three bytes written in place before `addr`. */
    method PatchField(addr: nat, rel: int)
      requires 3 <= addr <= |out.stream|
      modifies out
      ensures out.stream == Patch3(old(out.stream), addr, rel)
    {
      ghost var before := out.stream;
      out.stream := out.stream[addr - 3 := rel % 256];
      out.stream := out.stream[addr - 2 := (rel / 256) % 256];
      out.stream := out.stream[addr - 1 := (rel / 256 / 256) % 256];
      PatchInPlace(before, addr, rel, out.stream);
    }

    /** `label(L)`: record the current offset, then write 0x09. */
    method Label(l: Label)
      requires Valid()
      modifies this, out
      ensures Snapshot() == Encode(old(Snapshot()), Instr.Place(l)).value && Valid()
    {
      addresses := addresses[l := |out.stream|];
      U8(LabelCode);
    }

    method GetLocal(n: int) returns (r: Outcome)
      requires Valid()
      modifies out
      ensures r == Status(Encode(old(Snapshot()), Instr.GetLocal(n)))
      ensures r.Pass? ==> Snapshot() == Encode(old(Snapshot()), Instr.GetLocal(n)).value
      ensures Valid()
    {
      ghost var a0 := Snapshot();
      assert Encode(a0, Instr.GetLocal(n)) == LocalAccess(a0, n, 0xd0, GetLocalCode);
      if 0 <= n <= 3 {
        U8(0xd0 + n);
        return Pass;
      }
      U8(GetLocalCode);
      assert Snapshot() == Put(a0, [GetLocalCode]);
      r := U30(n);
    }

    method SetLocal(n: int) returns (r: Outcome)
      requires Valid()
      modifies out
      ensures r == Status(Encode(old(Snapshot()), Instr.SetLocal(n)))
      ensures r.Pass? ==> Snapshot() == Encode(old(Snapshot()), Instr.SetLocal(n)).value
      ensures Valid()
    {
      ghost var a0 := Snapshot();
      assert Encode(a0, Instr.SetLocal(n)) == LocalAccess(a0, n, 0xd4, SetLocalCode);
      if 0 <= n <= 3 {
        U8(0xd4 + n);
        return Pass;
      }
      U8(SetLocalCode);
      assert Snapshot() == Put(a0, [SetLocalCode]);
      r := U30(n);
    }

    /** The single-byte emitters (`add`, `pop`, `swap`, `li8`, ...). */
    method Fixed(op: FixedOp)
      requires Valid()
      modifies out
      ensures Snapshot() == Encode(old(Snapshot()), Instr.Op(op)).value && Valid()
    {
      var c := FixedCode(op);
      Code(c);
    }

    /** `call`, `getslot`, `setslot`, `inclocal_i`, `pushshort`, ...: opcode and `u30`. */
    method WithIndex(op: IndexOp, n: int) returns (r: Outcome)
      requires Valid()
      modifies out
      ensures r == Status(Encode(old(Snapshot()), Instr.WithIndex(op, n)))
      ensures r.Pass? ==> Snapshot() == Encode(old(Snapshot()), Instr.WithIndex(op, n)).value
      ensures Valid()
    {
      ghost var a0 := Snapshot();
      var c := IndexCode(op);
      Code(c);
      assert Snapshot() == Put(a0, [IndexCode(op)]);
      r := U30(n);
    }

    /** `callmethod`, `callproperty`, `callproplex`: opcode, index, argument count. */
    method WithCall(op: CallOp, n: int, argc: int) returns (r: Outcome)
      requires Valid()
      modifies out
      ensures r == Status(EncodeCall(old(Snapshot()), op, n, argc))
      ensures r.Pass? ==> Snapshot() == EncodeCall(old(Snapshot()), op, n, argc).value
      ensures Valid()
    {
      ghost var a0 := Snapshot();
      U8(CallCode(op));
      r := U30(n);
      if r.Fail? {
        return;
      }
      assert Snapshot() == PutU30(Put(a0, [CallCode(op)]), n).value;
      r := U30(argc);
    }

    method PushByte(v: int)
      requires Valid()
      modifies out
      ensures Snapshot() == Encode(old(Snapshot()), Instr.PushByte(v)).value && Valid()
    {
      U8(PushByteCode);
      U8(v);
    }

    method PushInt(v: int) returns (r: Outcome)
      requires Valid()
      modifies out, cpool
      ensures r == Status(Encode(old(Snapshot()), Instr.PushInt(v)))
      ensures r.Pass? ==> Snapshot() == Encode(old(Snapshot()), Instr.PushInt(v)).value
      ensures Valid()
    {
      ghost var a0 := Snapshot();
      var index := cpool.Integer(v);
      ghost var a1 := Snapshot();
      assert (index, a1.pool) == InternInteger(a0.pool, v) && a1 == a0.(pool := a1.pool);
      U8(PushIntCode);
      assert Snapshot() == Put(a1, [PushIntCode]);
      r := U30(index);
    }

    method PushUint(v: int) returns (r: Outcome)
      requires Valid()
      modifies out, cpool
      ensures r == Status(Encode(old(Snapshot()), Instr.PushUint(v)))
      ensures r.Pass? ==> Snapshot() == Encode(old(Snapshot()), Instr.PushUint(v)).value
      ensures Valid()
    {
      ghost var a0 := Snapshot();
      var index := cpool.Uinteger(v);
      ghost var a1 := Snapshot();
      assert (index, a1.pool) == InternUinteger(a0.pool, v) && a1 == a0.(pool := a1.pool);
      U8(PushUintCode);
      assert Snapshot() == Put(a1, [PushUintCode]);
      r := U30(index);
    }

    method PushDouble(d: Double) returns (r: Outcome)
      requires Valid()
      modifies out, cpool
      ensures r == Status(Encode(old(Snapshot()), Instr.PushDouble(d)))
      ensures r.Pass? ==> Snapshot() == Encode(old(Snapshot()), Instr.PushDouble(d)).value
      ensures Valid()
    {
      ghost var a0 := Snapshot();
      var index := cpool.Double(d);
      ghost var a1 := Snapshot();
      assert (index, a1.pool) == InternDouble(a0.pool, d) && a1 == a0.(pool := a1.pool);
      U8(PushDoubleCode);
      assert Snapshot() == Put(a1, [PushDoubleCode]);
      r := U30(index);
    }

    /** `ifeq` ... `iftrue`, `jump`: opcode, then `relativeAddress(label)`. */
    method Branch(op: BranchOp, l: Label)
      requires Valid()
      modifies this, out
      ensures Snapshot() == Encode(old(Snapshot()), Instr.Branch(op, l)).value && Valid()
    {
      ghost var a0 := Snapshot();
      BranchEncoding(a0, op, l);
      var c := BranchCode(op);
      Code(c);
      RelativeAddress(l);
    }

    /** `lookupswitch(default, cases)`: opcode, default displacement, the number of case
        labels, then one displacement per case. */
    method LookupSwitch(d: Label, cases: seq<Label>) returns (r: Outcome)
      requires Valid()
      modifies this, out
      ensures r == Status(EncodeSwitch(old(Snapshot()), d, cases))
      ensures r.Pass? ==> Snapshot() == EncodeSwitch(old(Snapshot()), d, cases).value
      ensures Valid()
    {
      ghost var a0 := Snapshot();
      U8(LookupSwitchCode);
      RelativeAddress(d);
      assert Snapshot() == RelAddr(Put(a0, [LookupSwitchCode]), d);
      r := U30(|cases|);
      if r.Fail? {
        return;
      }
      RelativeAddresses(cases);
    }

    /** The loop of `lookupswitch`: `relativeAddress` for each case label. */
    method RelativeAddresses(cases: seq<Label>)
      requires Valid()
      modifies this, out
      ensures Snapshot() == RelAddrs(old(Snapshot()), cases) && Valid()
    {
      ghost var start := Snapshot();
      var i := 0;
      while i < |cases|
        invariant 0 <= i <= |cases| && Valid()
        invariant RelAddrs(Snapshot(), cases[i..]) == RelAddrs(start, cases)
      {
        assert cases[i..][0] == cases[i] && cases[i..][1..] == cases[i + 1..];
        RelativeAddress(cases[i]);
        i := i + 1;
      }
      assert cases[i..] == [];
    }

    /** `getproperty(multiname)` calls `this.cpool.addMultiname`, which `CPool` does not
        define: it throws before writing anything. */
    method GetProperty(m: Multiname) returns (r: Outcome)
      ensures r == Status(Encode(Snapshot(), Instr.GetProperty(m)))
    {
      r := Fail(TypeError("this.cpool.addMultiname is not a function"));
    }

    /** Any one emitter. */
    method Emit(i: Instr) returns (r: Outcome)
      requires Valid()
      modifies this, out, cpool
      ensures r == Status(Encode(old(Snapshot()), i))
      ensures r.Pass? ==> Snapshot() == Encode(old(Snapshot()), i).value
      ensures Valid()
    {
      match i {
        case Op(op) => Fixed(op); r := Pass;
        case GetLocal(n) => r := GetLocal(n);
        case SetLocal(n) => r := SetLocal(n);
        case WithIndex(op, n) => r := WithIndex(op, n);
        case WithCall(op, n, argc) => r := WithCall(op, n, argc);
        case PushByte(v) => PushByte(v); r := Pass;
        case PushInt(v) => r := PushInt(v);
        case PushUint(v) => r := PushUint(v);
        case PushDouble(d) => r := PushDouble(d);
        case Branch(op, l) => Branch(op, l); r := Pass;
        case Place(l) => Label(l); r := Pass;
        case LookupSwitch(d, cases) => r := LookupSwitch(d, cases);
        case GetProperty(m) => r := GetProperty(m);
      }
    }

    /** The emitters of `code`, in order, stopping at the first throw. */
    method EmitAll(code: seq<Instr>) returns (r: Outcome)
      requires Valid()
      modifies this, out, cpool
      ensures r == Status(EncodeAll(old(Snapshot()), code))
      ensures r.Pass? ==> Snapshot() == EncodeAll(old(Snapshot()), code).value
      ensures Valid()
    {
      var i := 0;
      while i < |code|
        invariant 0 <= i <= |code| && Valid()
        invariant EncodeAll(Snapshot(), code[i..]) == EncodeAll(old(Snapshot()), code)
      {
        assert code[i..][0] == code[i] && code[i..][1..] == code[i + 1..];
        r := Emit(code[i]);
        if r.Fail? {
          return;
        }
        i := i + 1;
      }
      assert code[i..] == [];
      r := Pass;
    }

    /** `toBytes()`: `applyFixups`, then the stream. */
    method ToBytes() returns (r: Result<seq<byte>>)
      requires Valid()
      modifies this, out
      ensures r == PatchAll(old(out.stream), old(fixups), old(addresses))
      ensures r.Ok? ==> out.stream == r.value && fixups == [] && Valid()
      ensures addresses == old(addresses)
    {
      var o := ApplyFixups();
      if o.Fail? {
        return Err(o.error);
      }
      r := Ok(out.stream);
    }
  }

  lemma BranchEncoding(a: Asm, op: BranchOp, l: Label)
    ensures Encode(a, Instr.Branch(op, l)) == Ok(RelAddr(Put(a, [BranchCode(op)]), l))
  {
  }

  /** One turn of the patching loop keeps the fixups spaced and the rest of the work equal. */
  lemma PatchFromStep(s: seq<byte>, fixups: seq<Fixup>, addresses: map<Label, nat>, i: nat)
    requires Spaced(s, fixups) && i < |fixups| && fixups[i].target in addresses
    ensures var t := Patch3(s, fixups[i].addr, addresses[fixups[i].target] - fixups[i].addr);
      Spaced(t, fixups) && PatchFrom(t, fixups, addresses, i + 1) == PatchFrom(s, fixups, addresses, i)
  {
  }

  lemma PatchLoopStep(s: seq<byte>, t: seq<byte>, fixups: seq<Fixup>, addresses: map<Label, nat>,
                      i: nat, goal: Result<seq<byte>>)
    requires Spaced(s, fixups) && i < |fixups| && fixups[i].target in addresses
    requires PatchFrom(s, fixups, addresses, i) == goal
    requires t == Patch3(s, fixups[i].addr, addresses[fixups[i].target] - fixups[i].addr)
    ensures Spaced(t, fixups) && PatchFrom(t, fixups, addresses, i + 1) == goal
  {
    PatchFromStep(s, fixups, addresses, i);
  }

  /** The three in-place writes of `applyFixups` are `Patch3`. */
  lemma PatchInPlace(s: seq<byte>, addr: nat, rel: int, t: seq<byte>)
    requires 3 <= addr <= |s|
    requires t == s[addr - 3 := rel % 256][addr - 2 := (rel / 256) % 256][addr - 1 := (rel / 256 / 256) % 256]
    ensures t == Patch3(s, addr, rel)
  {
    assert LE(rel, 3) == [rel % 256, (rel / 256) % 256, (rel / 256 / 256) % 256];
  }
}
