/** The code generator of index.js (`convertFunction`, index.js:163-1094): the `visit*`
    callbacks that turn one binaryen expression tree into AVM2 instructions, as pure
    specification functions over the generator's state, and the `Converter` class whose
    methods do the same by updating that state in place. */
module CodeGen {
  import opened Bytes
  import opened WasmIr
  import opened Assembler
  import opened Labels
  import opened Registry

  const U30Max: int := 0x3FFF_FFFF

  /** What the callbacks read and change: the instructions emitted so far (in the order
      the source calls the builder's emitters), `labelStack`, the per-function block
      counter, the label counters, and the shared slot and method tables. */
  datatype St = St(code: seq<Instr>, stack: seq<Label>, blocks: nat, counters: Counters,
                   globals: Globals, methods: Methods)

  /** The state after a callback, and whether it returned or threw. */
  datatype Step = Step(st: St, r: Outcome)

  function Emit(s: St, instrs: seq<Instr>): St
  {
    s.(code := s.code + instrs)
  }

  function Done(s: St): Step
  {
    Step(s, Pass)
  }

  function Stop(s: St, e: Error): Step
  {
    Step(s, Fail(e))
  }

  /** `Array.prototype.pop`, whose result the callbacks discard. */
  function PopLabel(stack: seq<Label>): seq<Label>
  {
    if |stack| > 0 then stack[..|stack| - 1] else stack
  }

  /** `labelStack.find(label => label.name == name)`: the first, that is outermost, label
      of that name. */
  function FindLabel(stack: seq<Label>, name: string, i: nat): (r: Result<Label>)
    requires i <= |stack|
    ensures r.Ok? <==> exists k :: i <= k < |stack| && stack[k].name == name
    ensures r.Ok? ==> exists k :: i <= k < |stack| && stack[k] == r.value &&
                                 r.value.name == name && forall j :: i <= j < k ==> stack[j].name != name
    ensures r.Err? ==> r.error == UnknownLabel(name)
    decreases |stack| - i
  {
    if i == |stack| then Err(UnknownLabel(name))
    else if stack[i].name == name then Ok(stack[i])
    else FindLabel(stack, name, i + 1)
  }

  function LabelByName(stack: seq<Label>, name: string): Result<Label>
  {
    FindLabel(stack, name, 0)
  }

  /** `names.map(labelByName)`: stops at the first unknown name. */
  function LabelsByName(stack: seq<Label>, names: seq<string>): (r: Result<seq<Label>>)
    ensures r.Ok? ==> |r.value| == |names| &&
                      forall k :: 0 <= k < |names| ==> LabelByName(stack, names[k]) == Ok(r.value[k])
    ensures r.Err? ==> exists k :: 0 <= k < |names| && LabelByName(stack, names[k]).Err? && r.error == UnknownLabel(names[k])
  {
    if names == [] then Ok([])
    else
      var l :- LabelByName(stack, names[0]);
      var ls :- LabelsByName(stack, names[1..]);
      Ok([l] + ls)
  }

  /** The push of an i32 constant (`visitConst`), and of a positive memory offset
      (`visitLoad`, `visitStore`). */
  function IntPush(v: int): Instr
  {
    if 0 <= v <= 255 then PushByte(v)
    else if 0 <= v <= U30Max then WithIndex(PushShort, v)
    else PushInt(v)
  }

  /** The push of an f32 or f64 constant. */
  function FloatPush(d: Double): Instr
  {
    if d.NaN? then Op(PushNaN) else PushDouble(d)
  }

  /** A nonzero memory offset is added to the pointer. */
  function OffsetCode(offset: int): seq<Instr>
  {
    if offset > 0 then [IntPush(offset), Op(AddI)] else []
  }

  /** The `convert_u` the unsigned operators put after each operand. */
  function Unsigned(u: bool): seq<Instr>
  {
    if u then [Op(ConvertU)] else []
  }

  /** The conversion after a call, by the callee's result type. */
  function CallResult(t: ValType): Result<seq<Instr>>
  {
    match t
    case NoneType => Ok([Op(Pop)])
    case I32 => Ok([Op(ConvertI)])
    case F32 => Ok([Op(ConvertD)])
    case F64 => Ok([Op(ConvertD)])
    case I64 => Err(UnexpectedType)
  }

  /** The load of `visitLoad`; an i32 load of another width emits nothing. */
  function LoadCode(t: ValType, bytes: int, signed: bool): Result<seq<Instr>>
  {
    match t
    case I32 =>
      if bytes == 1 then Ok([Op(Li8)] + (if signed then [Op(Sxi8)] else []))
      else if bytes == 2 then Ok([Op(Li16)] + (if signed then [Op(Sxi16)] else []))
      else if bytes == 4 then Ok([Op(Li32)])
      else Ok([])
    case F32 => Ok([Op(Lf32)])
    case F64 => Ok([Op(Lf64)])
    case _ => Err(UnexpectedType)
  }

  /** The store of `visitStore`, by the type of the stored value. */
  function StoreCode(t: ValType, bytes: int): Result<seq<Instr>>
  {
    match t
    case I32 =>
      if bytes == 1 then Ok([Op(Si8)])
      else if bytes == 2 then Ok([Op(Si16)])
      else if bytes == 4 then Ok([Op(Si32)])
      else Err(Unsupported("store size"))
    case F32 => Ok([Op(Sf32)])
    case F64 => Ok([Op(Sf64)])
    case _ => Err(UnexpectedType)
  }

  /** The comparisons `visitIf` fuses into its branch: the branch taken when the
      comparison is false, and whether the operands are converted to unsigned first. */
  function Fused(op: BinaryOp): Option<(BranchOp, bool)>
  {
    match op
    case EqInt32 => Some((IfStrictNe, false))
    case EqFloat => Some((IfStrictNe, false))
    case NeInt32 => Some((IfStrictEq, false))
    case NeFloat => Some((IfStrictEq, false))
    case LtSInt32 => Some((IfNlt, false))
    case LtFloat => Some((IfNlt, false))
    case LtUInt32 => Some((IfNlt, true))
    case LeSInt32 => Some((IfNle, false))
    case LeFloat => Some((IfNle, false))
    case LeUInt32 => Some((IfNle, true))
    case GtSInt32 => Some((IfNgt, false))
    case GtFloat => Some((IfNgt, false))
    case GtUInt32 => Some((IfNgt, true))
    case GeSInt32 => Some((IfNge, false))
    case GeFloat => Some((IfNge, false))
    case GeUInt32 => Some((IfNge, true))
    case _ => None
  }

  /** The binary operators `visitBinary` compiles as both operands and then a fixed tail:
      whether the operands are converted to unsigned, and the tail. */
  function Arithmetic(op: BinaryOp): Option<(bool, seq<Instr>)>
  {
    match op
    case MulInt32 => Some((false, [Op(MultiplyI)]))
    case DivSInt32 => Some((false, [Op(Divide), Op(ConvertI)]))
    case DivUInt32 => Some((true, [Op(Divide), Op(ConvertU)]))
    case RemSInt32 => Some((false, [Op(Modulo), Op(ConvertI)]))
    case RemUInt32 => Some((true, [Op(Modulo), Op(ConvertU)]))
    case AndInt32 => Some((false, [Op(BitAnd)]))
    case OrInt32 => Some((false, [Op(BitOr)]))
    case XorInt32 => Some((false, [Op(BitXor)]))
    case ShlInt32 => Some((false, [Op(LShift)]))
    case ShrUInt32 => Some((false, [Op(URShift), Op(ConvertI)]))
    case ShrSInt32 => Some((false, [Op(RShift)]))
    case EqInt32 => Some((false, [Op(StrictEquals), Op(ConvertI)]))
    case NeInt32 => Some((false, [Op(StrictEquals), Op(Not), Op(ConvertI)]))
    case LtSInt32 => Some((false, [Op(LessThan), Op(ConvertI)]))
    case LtUInt32 => Some((true, [Op(LessThan), Op(ConvertI)]))
    case LeSInt32 => Some((false, [Op(LessEquals), Op(ConvertI)]))
    case LeUInt32 => Some((true, [Op(LessEquals), Op(ConvertI)]))
    case GtSInt32 => Some((false, [Op(GreaterThan), Op(ConvertI)]))
    case GtUInt32 => Some((true, [Op(GreaterThan), Op(ConvertI)]))
    case GeSInt32 => Some((false, [Op(GreaterEquals), Op(ConvertI)]))
    case GeUInt32 => Some((true, [Op(GreaterEquals), Op(ConvertI)]))
    case AddFloat => Some((false, [Op(Add)]))
    case SubFloat => Some((false, [Op(Subtract)]))
    case MulFloat => Some((false, [Op(Multiply)]))
    case DivFloat => Some((false, [Op(Divide)]))
    case EqFloat => Some((false, [Op(StrictEquals), Op(ConvertI)]))
    case NeFloat => Some((false, [Op(StrictEquals), Op(Not), Op(ConvertI)]))
    case LtFloat => Some((false, [Op(LessThan), Op(ConvertI)]))
    case LeFloat => Some((false, [Op(LessEquals), Op(ConvertI)]))
    case GtFloat => Some((false, [Op(GreaterThan), Op(ConvertI)]))
    case GeFloat => Some((false, [Op(GreaterEquals), Op(ConvertI)]))
    case _ => None
  }

  /** An i32 constant node's value, if e is one. */
  predicate IsI32Const(e: Expr, v: int)
  {
    e.Const? && e.literal.I32Lit? && e.literal.i == v
  }

  /** `visitLocalSet`'s increment test, as written: an `AddInt32` of a `LocalGet` whose
      index equals the SHIFTED index i and an i32 constant 1 or -1; the step, or 0. */
  function LocalStep(i: int, v: Expr): int
  {
    if v.Binary? && v.bop.AddInt32? && v.left.LocalGet? && v.left.index == i then
      if IsI32Const(v.right, 1) then 1 else if IsI32Const(v.right, -1) then -1 else 0
    else 0
  }

  // ---------------------------------------------------------------- the callbacks
  // Levels of the termination measure: Gen (e, 4); one function per node kind (e, 3);
  // shared shapes taking the node (e, 2); both operands of a binary node (e, 1);
  // an expression then fixed code (e, 5); the condition of an `if` (e, 6).

  /** `traverse(expr)`: the callback of the node's kind. */
  function Gen(s: St, e: Expr): Step
    decreases e, 4
  {
    match e
    case Block(_, _) => GenBlock(s, e)
    case If(_, _, _) => GenIf(s, e)
    case Loop(_, _) => GenLoop(s, e)
    case Break(_, _, _) => GenBreak(s, e)
    case Switch(_, _, _, _) => GenSwitch(s, e)
    case Call(_, _, _) => GenCall(s, e)
    case CallIndirect(_, _, _) => GenCallIndirect(s, e)
    case LocalGet(k) => Done(Emit(s, [GetLocal(k + 1)]))
    case LocalSet(_, _, _) => GenLocalSet(s, e)
    case GlobalGet(_, _) => GenGlobalGet(s, e)
    case GlobalSet(_, _, _) => GenGlobalSet(s, e)
    case Load(_, _, _, _, _) => GenLoad(s, e)
    case Store(_, _, _, _, _) => GenStore(s, e)
    case Const(lit) => GenConst(s, lit)
    case Unary(_, _) => GenUnary(s, e)
    case Binary(_, _, _) => GenBinary(s, e)
    case Select(_, _, _) => GenSelect(s, e)
    case Drop(_) => Done(Emit(s, [Op(Pop)]))
    case Return(_) => GenReturn(s, e)
    case MemoryGrow(_) => GenMemoryGrow(s, e)
    case MemorySize => GenMemorySize(s)
    case OtherHost(_) => Stop(s, TypeError("not a constructor"))
    case Nop => Done(Emit(s, [Op(FixedOp.Nop)]))
    case Unreachable => Done(s)
    case Unhandled(_) => Stop(s, ReferenceError("id"))
  }

  /** `info.children.forEach(traverse)` from child i on. */
  function GenList(s: St, es: seq<Expr>, i: nat): Step
    requires i <= |es|
    decreases es, |es| - i
  {
    if i == |es| then Done(s)
    else
      var t := Gen(s, es[i]);
      if t.r.Fail? then t else GenList(t.st, es, i + 1)
  }

  /** `traverse(x)`, then the instructions `tail`. */
  function GenThen(s: St, x: Expr, tail: seq<Instr>): Step
    decreases x, 5
  {
    var t := Gen(s, x);
    if t.r.Fail? then t else Done(Emit(t.st, tail))
  }

  function GenBlock(s: St, e: Expr): Step
    requires e.Block?
    decreases e, 3
  {
    var name := if e.name == "" then "block" + NatToString(s.blocks) else e.name;
    var blocks := if e.name == "" then s.blocks + 1 else s.blocks;
    var (l, c) := NewLabel(s.counters, Some(name));
    var t := GenList(s.(blocks := blocks, counters := c, stack := s.stack + [l]), e.children, 0);
    if t.r.Fail? then t else Done(Emit(t.st, [Place(l)]).(stack := PopLabel(t.st.stack)))
  }

  function GenIf(s: St, e: Expr): Step
    requires e.If?
    decreases e, 3
  {
    var (ifEnd, c) := NewLabel(s.counters, None);
    var t := GenCondition(s.(counters := c), e.condition, ifEnd);
    if t.r.Fail? then t else
    var u := Gen(t.st, e.ifTrue);
    if u.r.Fail? then u else
    var s1 := Emit(u.st, [Place(ifEnd)]);
    if e.orElse.None? then Done(s1) else
    var (elseEnd, c2) := NewLabel(s1.counters, None);
    var v := Gen(Emit(s1.(counters := c2), [Branch(Jump, elseEnd)]), e.orElse.value);
    if v.r.Fail? then v else Done(Emit(v.st, [Place(elseEnd)]))
  }

  /** The condition of `visitIf` and the branch to `ifEnd` taken when it is false. */
  function GenCondition(s: St, c: Expr, ifEnd: Label): Step
    decreases c, 6
  {
    if c.Binary? && Fused(c.bop).Some? then
      var t := GenOperands(s, c, Fused(c.bop).value.1);
      if t.r.Fail? then t else Done(Emit(t.st, [Branch(Fused(c.bop).value.0, ifEnd)]))
    else if c.Unary? && c.uop.EqZInt32? then
      GenThen(s, c.value, [PushByte(0), Branch(IfStrictNe, ifEnd)])
    else
      GenThen(s, c, [Branch(IfFalse, ifEnd)])
  }

  /** `traverse(left)`, `traverse(right)`, each followed by `convert_u` if unsigned. */
  function GenOperands(s: St, e: Expr, unsigned: bool): Step
    requires e.Binary?
    decreases e, 1
  {
    var t := Gen(s, e.left);
    if t.r.Fail? then t else
    var u := Gen(Emit(t.st, Unsigned(unsigned)), e.right);
    if u.r.Fail? then u else Done(Emit(u.st, Unsigned(unsigned)))
  }

  function GenLoop(s: St, e: Expr): Step
    requires e.Loop?
    decreases e, 3
  {
    var (start, c) := NewLabel(s.counters, Some(e.name));
    var t := Gen(Emit(s.(counters := c, stack := s.stack + [start]), [Place(start)]), e.body);
    if t.r.Fail? then t else Done(Emit(t.st, [Branch(Jump, start)]).(stack := PopLabel(t.st.stack)))
  }

  function GenBreak(s: St, e: Expr): Step
    requires e.Break?
    decreases e, 3
  {
    var l := LabelByName(s.stack, e.name);
    if l.Err? then Stop(s, l.error) else
    var t := if e.carried.Some? then Gen(s, e.carried.value) else Done(s);
    if t.r.Fail? then t else
    if e.guard.Some? then GenThen(t.st, e.guard.value, [Branch(IfTrue, l.value)])
    else Done(Emit(t.st, [Branch(Jump, l.value)]))
  }

  function GenSwitch(s: St, e: Expr): Step
    requires e.Switch?
    decreases e, 3
  {
    if e.carried.Some? then Stop(s, Unsupported("switch value")) else
    var t := Gen(s, e.condition);
    if t.r.Fail? then t else
    var d := LabelByName(t.st.stack, e.defaultName);
    if d.Err? then Stop(t.st, d.error) else
    var cases := LabelsByName(t.st.stack, e.names);
    if cases.Err? then Stop(t.st, cases.error) else
    Done(Emit(t.st, [LookupSwitch(d.value, cases.value)]))
  }

  /** The call and the conversion of its result. */
  function CallTail(s: St, call: Instr, t: ValType): Step
  {
    var tail := CallResult(t);
    var s1 := Emit(s, [call]);
    if tail.Err? then Stop(s1, tail.error) else Done(Emit(s1, tail.value))
  }

  function GenCall(s: St, e: Expr): Step
    requires e.Call?
    decreases e, 3
  {
    var t := GenList(Emit(s, [Op(GetLocal0)]), e.operands, 0);
    if t.r.Fail? then t else
    var index := LookupMethod(t.st.methods, e.target);
    if index.Err? then Stop(t.st, index.error) else
    CallTail(t.st, WithCall(CallMethod, index.value, |e.operands|), e.resultType)
  }

  /** The callee is always called as multiname 1. */
  function GenCallIndirect(s: St, e: Expr): Step
    requires e.CallIndirect?
    decreases e, 3
  {
    var t := Gen(Emit(s, [Op(GetLocal0), WithIndex(GetSlot, TableSlot)]), e.callee);
    if t.r.Fail? then t else
    var u := GenList(t.st, e.operands, 0);
    if u.r.Fail? then u else
    CallTail(u.st, WithCall(CallProperty, 1, |e.operands|), e.resultType)
  }

  function GenLocalSet(s: St, e: Expr): Step
    requires e.LocalSet?
    decreases e, 3
  {
    var i := e.index + 1;
    var step := LocalStep(i, e.value);
    if step == 1 then Done(Emit(s, [WithIndex(IncLocalI, i)] + (if e.isTee && i != 0 then [GetLocal(i)] else [])))
    else if step == -1 then Done(Emit(s, [WithIndex(DecLocalI, i)] + (if e.isTee then [GetLocal(i)] else [])))
    else GenThen(s, e.value, (if e.isTee then [Op(Dup)] else []) + [SetLocal(i)])
  }

  function GenGlobalGet(s: St, e: Expr): Step
    requires e.GlobalGet?
    decreases e, 3
  {
    var s1 := Emit(s, [Op(GetLocal0)]);
    var g := SlotFor(s1.globals, e.name, e.valueType);
    if g.Err? then Stop(s1, g.error) else Done(Emit(s1.(globals := g.value.1), [WithIndex(GetSlot, g.value.0)]))
  }

  function GenGlobalSet(s: St, e: Expr): Step
    requires e.GlobalSet?
    decreases e, 3
  {
    var t := Gen(Emit(s, [Op(GetLocal0)]), e.value);
    if t.r.Fail? then t else
    var g := SlotFor(t.st.globals, e.name, e.valueType);
    if g.Err? then Stop(t.st, g.error) else Done(Emit(t.st.(globals := g.value.1), [WithIndex(SetSlot, g.value.0)]))
  }

  function GenLoad(s: St, e: Expr): Step
    requires e.Load?
    decreases e, 3
  {
    var t := Gen(s, e.ptr);
    if t.r.Fail? then t else
    var s1 := Emit(t.st, OffsetCode(e.offset));
    var load := LoadCode(e.valueType, e.bytes, e.isSigned);
    if load.Err? then Stop(s1, load.error) else Done(Emit(s1, load.value))
  }

  function GenStore(s: St, e: Expr): Step
    requires e.Store?
    decreases e, 3
  {
    var t := Gen(s, e.ptr);
    if t.r.Fail? then t else
    var u := Gen(Emit(t.st, OffsetCode(e.offset)), e.value);
    if u.r.Fail? then u else
    var s1 := Emit(u.st, [Op(Swap)]);
    var store := StoreCode(e.valueType, e.bytes);
    if store.Err? then Stop(s1, store.error) else Done(Emit(s1, store.value))
  }

  function GenConst(s: St, lit: Literal): Step
  {
    match lit
    case I32Lit(v) => Done(Emit(s, [IntPush(v)]))
    case F32Lit(d) => Done(Emit(s, [FloatPush(d)]))
    case F64Lit(d) => Done(Emit(s, [FloatPush(d)]))
    case I64Lit(_) => Stop(s, UnexpectedType)
  }

  /** A runtime helper of one argument: `this`, the helper's index, the operand, the call. */
  function GenHelper1(s: St, e: Expr, helper: string, tail: seq<Instr>): Step
    requires e.Unary?
    decreases e, 2
  {
    var s1 := Emit(s, [Op(GetLocal0)]);
    var index := LookupMethod(s1.methods, helper);
    if index.Err? then Stop(s1, index.error) else
    GenThen(s1, e.value, [WithCall(CallMethod, index.value, 1)] + tail)
  }

  /** A reinterpretation through the scratch imports: store the operand, then load it
      back as the other type. */
  function GenScratch(s: St, e: Expr, store: string, load: string, convert: FixedOp): Step
    requires e.Unary?
    decreases e, 2
  {
    var i1 := LookupMethod(s.methods, store);
    if i1.Err? then Stop(s, i1.error) else
    var t := GenThen(Emit(s, [Op(GetLocal0)]), e.value, [WithCall(CallMethod, i1.value, 1), Op(Pop)]);
    if t.r.Fail? then t else GenScratchLoad(t.st, load, convert)
  }

  /** The second half of a reinterpretation: `this`, the load helper, its call, the
      conversion of its result. */
  function GenScratchLoad(s: St, load: string, convert: FixedOp): Step
  {
    var i2 := LookupMethod(s.methods, load);
    if i2.Err? then Stop(s, i2.error) else
    Done(Emit(s, [Op(GetLocal0), WithCall(CallMethod, i2.value, 0), Op(convert)]))
  }

  function GenUnary(s: St, e: Expr): Step
    requires e.Unary?
    decreases e, 3
  {
    match e.uop
    case ClzInt32 => GenHelper1(s, e, "__wasm2swf_clz32", [Op(ConvertI)])
    case CtzInt32 => Stop(s, Unsupported("i32 unary"))
    case PopcntInt32 => Stop(s, Unsupported("i32 unary"))
    case NegFloat => GenThen(s, e.value, [Op(Negate)])
    case AbsFloat => GenHelper1(s, e, "__wasm2swf_abs", [])
    case CeilFloat => GenHelper1(s, e, "__wasm2swf_ceil", [])
    case FloorFloat => GenHelper1(s, e, "__wasm2swf_floor", [])
    case TruncFloat => Stop(s, Unsupported("trunc"))
    case NearestFloat => Stop(s, Unsupported("nearest"))
    case SqrtFloat => GenHelper1(s, e, "__wasm2swf_sqrt", [])
    case EqZInt32 => GenThen(s, e.value, [PushByte(0), Op(StrictEquals), Op(ConvertI)])
    case TruncSFloatToInt32 => GenThen(s, e.value, [Op(ConvertI)])
    case TruncUFloatToInt32 => GenThen(s, e.value, [Op(ConvertU)])
    case ReinterpretFloat32 => GenScratch(s, e, "wasm2js_scratch_store_f32", "wasm2js_scratch_load_i32", ConvertI)
    case ReinterpretFloat64 => Stop(s, Unsupported("reinterpret f64"))
    case ConvertSInt32ToFloat => GenThen(s, e.value, [Op(ConvertD)])
    case ConvertUInt32ToFloat => GenThen(s, e.value, [Op(ConvertU), Op(ConvertD)])
    case PromoteOrDemote => GenThen(s, e.value, [])
    case ReinterpretInt32 => GenScratch(s, e, "wasm2js_scratch_store_i32", "wasm2js_scratch_load_f32", ConvertD)
    case ReinterpretInt64 => Stop(s, Unsupported("reinterpret int"))
    case OtherUnary(_) => Stop(s, Unsupported("unary op"))
  }

  /** `AddInt32` and `SubInt32`: a constant right operand of 1 or -1 becomes one
      increment or decrement and is not traversed. */
  function GenStep(s: St, e: Expr, plusOne: FixedOp, minusOne: FixedOp, general: FixedOp): Step
    requires e.Binary?
    decreases e, 2
  {
    var t := Gen(s, e.left);
    if t.r.Fail? then t
    else if IsI32Const(e.right, 1) then Done(Emit(t.st, [Op(plusOne)]))
    else if IsI32Const(e.right, -1) then Done(Emit(t.st, [Op(minusOne)]))
    else GenThen(t.st, e.right, [Op(general)])
  }

  /** A runtime helper of two arguments. */
  function GenHelper2(s: St, e: Expr, helper: string): Step
    requires e.Binary?
    decreases e, 2
  {
    var s1 := Emit(s, [Op(GetLocal0)]);
    var index := LookupMethod(s1.methods, helper);
    if index.Err? then Stop(s1, index.error) else
    var t := GenOperands(s1, e, false);
    if t.r.Fail? then t else Done(Emit(t.st, [WithCall(CallMethod, index.value, 2)]))
  }

  function GenBinary(s: St, e: Expr): Step
    requires e.Binary?
    decreases e, 3
  {
    if Arithmetic(e.bop).Some? then
      var t := GenOperands(s, e, Arithmetic(e.bop).value.0);
      if t.r.Fail? then t else Done(Emit(t.st, Arithmetic(e.bop).value.1))
    else
      match e.bop
      case AddInt32 => GenStep(s, e, IncrementI, DecrementI, AddI)
      case SubInt32 => GenStep(s, e, DecrementI, IncrementI, SubtractI)
      case CopySignFloat =>
        var t := GenOperands(s, e, false);
        if t.r.Fail? then t else Stop(t.st, Unsupported("copy sign"))
      case MinFloat => GenHelper2(s, e, "__wasm2swf_min")
      case MaxFloat => GenHelper2(s, e, "__wasm2swf_max")
      case RotLInt32 => Stop(s, Unsupported("rotate"))
      case RotRInt32 => Stop(s, Unsupported("rotate"))
      case _ => Stop(s, Unsupported("binary op"))
  }

  function GenSelect(s: St, e: Expr): Step
    requires e.Select?
    decreases e, 3
  {
    var t := Gen(s, e.ifTrue);
    if t.r.Fail? then t else
    var u := Gen(t.st, e.ifFalse);
    if u.r.Fail? then u else
    var v := Gen(u.st, e.condition);
    if v.r.Fail? then v else
    var (l, c) := NewLabel(v.st.counters, None);
    Done(Emit(v.st.(counters := c), [Branch(IfTrue, l), Op(Swap), Place(l), Op(Pop)]))
  }

  function GenReturn(s: St, e: Expr): Step
    requires e.Return?
    decreases e, 3
  {
    if e.result.Some? then GenThen(s, e.result.value, [Op(ReturnValue)])
    else Done(Emit(s, [Op(ReturnVoid)]))
  }

  function GenMemoryGrow(s: St, e: Expr): Step
    requires e.MemoryGrow?
    decreases e, 3
  {
    var index := LookupMethod(s.methods, "__wasm2swf_memory_grow");
    if index.Err? then Stop(s, index.error) else
    GenThen(Emit(s, [Op(GetLocal0)]), e.delta, [WithCall(CallMethod, index.value, 1), Op(ConvertI)])
  }

  function GenMemorySize(s: St): Step
  {
    var index := LookupMethod(s.methods, "__wasm2swf_memory_size");
    if index.Err? then Stop(s, index.error) else
    Done(Emit(s, [Op(GetLocal0), WithCall(CallMethod, index.value, 0), Op(ConvertI)]))
  }

  // ---------------------------------------------------------------- one function

  /** `types.map(avmType)`: the first type without an AVM2 name throws. */
  function AvmTypes(ts: seq<ValType>): (r: Result<seq<string>>)
    ensures r.Ok? <==> forall k :: 0 <= k < |ts| ==> AvmType(ts[k]).Ok?
    ensures r.Ok? ==> |r.value| == |ts| && forall k :: 0 <= k < |ts| ==> AvmType(ts[k]) == Ok(r.value[k])
    ensures r.Err? ==> r.error == UnexpectedType
  {
    if ts == [] then Ok([])
    else
      var t :- AvmType(ts[0]);
      var rest :- AvmTypes(ts[1..]);
      Ok([t] + rest)
  }

  /** The AVM2 names of a function's parameter, result and local types. */
  datatype Signature = Signature(args: seq<string>, result: string, vars: seq<string>)

  /** `argTypes`, `resultType` and `varTypes`, computed in that order. */
  function FunctionSignature(f: Func): Result<Signature>
  {
    var args :- AvmTypes(f.params);
    var result :- AvmType(f.results);
    var vars :- AvmTypes(f.vars);
    Ok(Signature(args, result, vars))
  }

  /** The zero a local of that AVM2 type starts with; other types throw. */
  function ZeroFor(t: string): Result<Instr>
  {
    if t == "int" then Ok(PushByte(0))
    else if t == "Number" then Ok(PushDouble(PositiveZero))
    else Err(UnexpectedType)
  }

  /** The initialisation of the declared locals from the k-th on: local k of `vars` is
      register base + k + 1, register 0 being `this`. */
  function GenInit(s: St, vars: seq<string>, base: nat, k: nat): Step
    requires k <= |vars|
    decreases |vars| - k
  {
    if k == |vars| then Done(s)
    else
      var z := ZeroFor(vars[k]);
      if z.Err? then Stop(s, z.error)
      else GenInit(Emit(s, [z.value, SetLocal(base + k + 1)]), vars, base, k + 1)
  }

  /** The code `convertFunction` emits for a function with that signature: nothing for
      an import; otherwise the local initialisation, the body, and `returnvoid` when
      the function returns nothing. */
  function GenFunction(s: St, f: Func, sig: Signature): Step
  {
    if f.importModule != "" then Done(s) else
    var t := GenInit(s, sig.vars, |sig.args|, 0);
    if t.r.Fail? then t else
    var u := if f.body.Some? then Gen(t.st, f.body.value) else Done(t.st);
    if u.r.Fail? then u
    else if f.results == NoneType then Done(Emit(u.st, [Op(ReturnVoid)]))
    else u
  }
}
