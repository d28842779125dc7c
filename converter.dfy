/** The callbacks of `convertFunction` (index.js:163-1094) as the methods of one object:
    the emitted instructions, `labelStack` and the block counter are its fields, and it
    shares the label counters and the module's slot and method tables. Each method is
    proved to do what the specification function of the same callback in `CodeGen`
    describes. */
module Translator {
  import opened Bytes
  import opened WasmIr
  import opened Assembler
  import opened Labels
  import opened Registry
  import opened CodeGen

  class Converter {
    const tables: Tables
    const maker: LabelMaker
    var code: seq<Instr>
    var labelStack: seq<Label>
    var blockIndex: nat

    function Snapshot(): St
      reads this, tables, maker
    {
      St(code, labelStack, blockIndex, maker.State(), tables.GlobalTable(), tables.MethodTable())
    }

    /** The closure state at the start of `convertFunction`. */
    constructor(tables: Tables, maker: LabelMaker)
      ensures this.tables == tables && this.maker == maker
      ensures Snapshot() == St([], [], 0, maker.State(), tables.GlobalTable(), tables.MethodTable())
    {
      this.tables := tables;
      this.maker := maker;
      code, labelStack, blockIndex := [], [], 0;
    }

    /** Calls of the builder's emitters, in order. */
    method Put(instrs: seq<Instr>)
      modifies this
      ensures Snapshot() == Emit(old(Snapshot()), instrs)
    {
      code := code + instrs;
    }

    /** `traverse(expr)`, `walkExpression` and the callback of the node's kind (the
        dispatch is split in two only to keep each proof small). */
    method Traverse(e: Expr) returns (r: Outcome)
      modifies this, tables, maker
      ensures Step(Snapshot(), r) == Gen(old(Snapshot()), e)
      decreases e, 5
    {
      if e.Block? || e.If? || e.Loop? || e.Break? || e.Switch? || e.Call? || e.CallIndirect?
         || e.Return? || e.Unreachable? || e.Nop?
      {
        r := TraverseControl(e);
      } else {
        r := TraverseValue(e);
      }
    }

    method TraverseControl(e: Expr) returns (r: Outcome)
      requires e.Block? || e.If? || e.Loop? || e.Break? || e.Switch? || e.Call? || e.CallIndirect?
               || e.Return? || e.Unreachable? || e.Nop?
      modifies this, tables, maker
      ensures Step(Snapshot(), r) == Gen(old(Snapshot()), e)
      decreases e, 4
    {
      match e {
        case Block(_, _) => r := VisitBlock(e);
        case If(_, _, _) => r := VisitIf(e);
        case Loop(_, _) => r := VisitLoop(e);
        case Break(_, _, _) => r := VisitBreak(e);
        case Switch(_, _, _, _) => r := VisitSwitch(e);
        case Call(_, _, _) => r := VisitCall(e);
        case CallIndirect(_, _, _) => r := VisitCallIndirect(e);
        case Return(_) => r := VisitReturn(e);
        case Nop => Put([Op(FixedOp.Nop)]); r := Pass;
        case Unreachable => r := Pass;
      }
    }

    method TraverseValue(e: Expr) returns (r: Outcome)
      requires !(e.Block? || e.If? || e.Loop? || e.Break? || e.Switch? || e.Call? || e.CallIndirect?
                 || e.Return? || e.Unreachable? || e.Nop?)
      modifies this, tables, maker
      ensures Step(Snapshot(), r) == Gen(old(Snapshot()), e)
      decreases e, 4
    {
      match e {
        case LocalGet(k) => Put([GetLocal(k + 1)]); r := Pass;
        case LocalSet(_, _, _) => r := VisitLocalSet(e);
        case GlobalGet(_, _) => r := VisitGlobalGet(e);
        case GlobalSet(_, _, _) => r := VisitGlobalSet(e);
        case Load(_, _, _, _, _) => r := VisitLoad(e);
        case Store(_, _, _, _, _) => r := VisitStore(e);
        case Const(lit) => r := VisitConst(lit);
        case Unary(_, _) => r := VisitUnary(e);
        case Binary(_, _, _) => r := VisitBinary(e);
        case Select(_, _, _) => r := VisitSelect(e);
        case Drop(_) => Put([Op(Pop)]); r := Pass;
        case MemoryGrow(_) => r := VisitMemoryGrow(e);
        case MemorySize => r := VisitMemorySize();
        case OtherHost(_) => r := Fail(TypeError("not a constructor"));
        case Unhandled(_) => r := Fail(ReferenceError("id"));
      }
    }

    /** `forEach(traverse)`. */
    method TraverseAll(es: seq<Expr>) returns (r: Outcome)
      modifies this, tables, maker
      ensures Step(Snapshot(), r) == GenList(old(Snapshot()), es, 0)
      decreases es, 0
    {
      var i := 0;
      while i < |es|
        invariant 0 <= i <= |es|
        invariant GenList(Snapshot(), es, i) == GenList(old(Snapshot()), es, 0)
      {
        r := Traverse(es[i]);
        if r.Fail? {
          return;
        }
        i := i + 1;
      }
      r := Pass;
    }

    method TraverseThen(x: Expr, tail: seq<Instr>) returns (r: Outcome)
      modifies this, tables, maker
      ensures Step(Snapshot(), r) == GenThen(old(Snapshot()), x, tail)
      decreases x, 6
    {
      r := Traverse(x);
      if r.Fail? {
        return;
      }
      Put(tail);
    }

    method VisitBlock(e: Expr) returns (r: Outcome)
      requires e.Block?
      modifies this, tables, maker
      ensures Step(Snapshot(), r) == GenBlock(old(Snapshot()), e)
      decreases e, 3
    {
      var name := e.name;
      if name == "" {
        name := "block" + NatToString(blockIndex);
        blockIndex := blockIndex + 1;
      }
      var l := maker.New(Some(name));
      labelStack := labelStack + [l];
      r := TraverseAll(e.children);
      if r.Fail? {
        return;
      }
      code := code + [Place(l)];
      labelStack := PopLabel(labelStack);
    }

    method VisitIf(e: Expr) returns (r: Outcome)
      requires e.If?
      modifies this, tables, maker
      ensures Step(Snapshot(), r) == GenIf(old(Snapshot()), e)
      decreases e, 3
    {
      var ifEnd := maker.New(None);
      r := Condition(e.condition, ifEnd);
      if r.Fail? {
        return;
      }
      r := Traverse(e.ifTrue);
      if r.Fail? {
        return;
      }
      Put([Place(ifEnd)]);
      if e.orElse.Some? {
        var elseEnd := maker.New(None);
        Put([Branch(Jump, elseEnd)]);
        r := Traverse(e.orElse.value);
        if r.Fail? {
          return;
        }
        Put([Place(elseEnd)]);
      }
    }

    /** The `switch` on the condition's kind and operator at the head of `visitIf`. */
    method Condition(c: Expr, ifEnd: Label) returns (r: Outcome)
      modifies this, tables, maker
      ensures Step(Snapshot(), r) == GenCondition(old(Snapshot()), c, ifEnd)
      decreases c, 7
    {
      if c.Binary? && Fused(c.bop).Some? {
        var (bop, unsigned) := Fused(c.bop).value;
        r := Operands(c, unsigned);
        if r.Fail? {
          return;
        }
        Put([Branch(bop, ifEnd)]);
      } else if c.Unary? && c.uop.EqZInt32? {
        r := TraverseThen(c.value, [PushByte(0), Branch(IfStrictNe, ifEnd)]);
      } else {
        r := TraverseThen(c, [Branch(IfFalse, ifEnd)]);
      }
    }

    method Operands(e: Expr, unsigned: bool) returns (r: Outcome)
      requires e.Binary?
      modifies this, tables, maker
      ensures Step(Snapshot(), r) == GenOperands(old(Snapshot()), e, unsigned)
      decreases e, 1
    {
      r := Traverse(e.left);
      if r.Fail? {
        return;
      }
      Put(Unsigned(unsigned));
      r := Traverse(e.right);
      if r.Fail? {
        return;
      }
      Put(Unsigned(unsigned));
    }

    method VisitLoop(e: Expr) returns (r: Outcome)
      requires e.Loop?
      modifies this, tables, maker
      ensures Step(Snapshot(), r) == GenLoop(old(Snapshot()), e)
      decreases e, 3
    {
      var start := maker.New(Some(e.name));
      labelStack := labelStack + [start];
      Put([Place(start)]);
      r := Traverse(e.body);
      if r.Fail? {
        return;
      }
      Put([Branch(Jump, start)]);
      labelStack := PopLabel(labelStack);
    }

    method VisitBreak(e: Expr) returns (r: Outcome)
      requires e.Break?
      modifies this, tables, maker
      ensures Step(Snapshot(), r) == GenBreak(old(Snapshot()), e)
      decreases e, 3
    {
      var l := LabelByName(labelStack, e.name);
      if l.Err? {
        return Fail(l.error);
      }
      r := Pass;
      if e.carried.Some? {
        r := Traverse(e.carried.value);
        if r.Fail? {
          return;
        }
      }
      if e.guard.Some? {
        r := TraverseThen(e.guard.value, [Branch(IfTrue, l.value)]);
      } else {
        Put([Branch(Jump, l.value)]);
      }
    }

    method VisitSwitch(e: Expr) returns (r: Outcome)
      requires e.Switch?
      modifies this, tables, maker
      ensures Step(Snapshot(), r) == GenSwitch(old(Snapshot()), e)
      decreases e, 3
    {
      if e.carried.Some? {
        return Fail(Unsupported("switch value"));
      }
      r := Traverse(e.condition);
      if r.Fail? {
        return;
      }
      var d := LabelByName(labelStack, e.defaultName);
      if d.Err? {
        return Fail(d.error);
      }
      var cases := LabelsByName(labelStack, e.names);
      if cases.Err? {
        return Fail(cases.error);
      }
      Put([LookupSwitch(d.value, cases.value)]);
    }

    /** The call instruction and the `switch` on the result type after it. */
    method EmitCall(call: Instr, t: ValType) returns (r: Outcome)
      modifies this
      ensures Step(Snapshot(), r) == CallTail(old(Snapshot()), call, t)
    {
      Put([call]);
      match t {
        case NoneType => Put([Op(Pop)]); r := Pass;
        case I32 => Put([Op(ConvertI)]); r := Pass;
        case F32 => Put([Op(ConvertD)]); r := Pass;
        case F64 => Put([Op(ConvertD)]); r := Pass;
        case I64 => r := Fail(UnexpectedType);
      }
    }

    method VisitCall(e: Expr) returns (r: Outcome)
      requires e.Call?
      modifies this, tables, maker
      ensures Step(Snapshot(), r) == GenCall(old(Snapshot()), e)
      decreases e, 3
    {
      Put([Op(GetLocal0)]);
      r := TraverseAll(e.operands);
      if r.Fail? {
        return;
      }
      var index := tables.MethodIndex(e.target);
      if index.Err? {
        return Fail(index.error);
      }
      r := EmitCall(WithCall(CallMethod, index.value, |e.operands|), e.resultType);
    }

    method VisitCallIndirect(e: Expr) returns (r: Outcome)
      requires e.CallIndirect?
      modifies this, tables, maker
      ensures Step(Snapshot(), r) == GenCallIndirect(old(Snapshot()), e)
      decreases e, 3
    {
      Put([Op(GetLocal0), WithIndex(GetSlot, TableSlot)]);
      r := Traverse(e.callee);
      if r.Fail? {
        return;
      }
      r := TraverseAll(e.operands);
      if r.Fail? {
        return;
      }
      r := EmitCall(WithCall(CallProperty, 1, |e.operands|), e.resultType);
    }

    method VisitLocalSet(e: Expr) returns (r: Outcome)
      requires e.LocalSet?
      modifies this, tables, maker
      ensures Step(Snapshot(), r) == GenLocalSet(old(Snapshot()), e)
      decreases e, 3
    {
      var i := e.index + 1;
      var step := LocalStep(i, e.value);
      if step == 1 {
        Put([WithIndex(IncLocalI, i)]);
        if e.isTee && i != 0 {
          Put([GetLocal(i)]);
        }
        r := Pass;
      } else if step == -1 {
        Put([WithIndex(DecLocalI, i)]);
        if e.isTee {
          Put([GetLocal(i)]);
        }
        r := Pass;
      } else {
        r := TraverseThen(e.value, (if e.isTee then [Op(Dup)] else []) + [SetLocal(i)]);
      }
    }

    method VisitGlobalGet(e: Expr) returns (r: Outcome)
      requires e.GlobalGet?
      modifies this, tables
      ensures Step(Snapshot(), r) == GenGlobalGet(old(Snapshot()), e)
    {
      Put([Op(GetLocal0)]);
      var index := tables.SlotForGlobal(e.name, e.valueType);
      if index.Err? {
        return Fail(index.error);
      }
      Put([WithIndex(GetSlot, index.value)]);
      r := Pass;
    }

    method VisitGlobalSet(e: Expr) returns (r: Outcome)
      requires e.GlobalSet?
      modifies this, tables, maker
      ensures Step(Snapshot(), r) == GenGlobalSet(old(Snapshot()), e)
      decreases e, 3
    {
      Put([Op(GetLocal0)]);
      r := Traverse(e.value);
      if r.Fail? {
        return;
      }
      var index := tables.SlotForGlobal(e.name, e.valueType);
      if index.Err? {
        return Fail(index.error);
      }
      Put([WithIndex(SetSlot, index.value)]);
    }

    /** The offset code shared by `visitLoad` and `visitStore`. */
    method EmitOffset(offset: int)
      modifies this
      ensures Snapshot() == Emit(old(Snapshot()), OffsetCode(offset))
    {
      if offset > 0 {
        if offset <= 255 {
          Put([PushByte(offset)]);
        } else if offset <= U30Max {
          Put([WithIndex(PushShort, offset)]);
        } else {
          Put([PushInt(offset)]);
        }
        Put([Op(AddI)]);
      }
    }

    method VisitLoad(e: Expr) returns (r: Outcome)
      requires e.Load?
      modifies this, tables, maker
      ensures Step(Snapshot(), r) == GenLoad(old(Snapshot()), e)
      decreases e, 3
    {
      r := Traverse(e.ptr);
      if r.Fail? {
        return;
      }
      EmitOffset(e.offset);
      var load := LoadCode(e.valueType, e.bytes, e.isSigned);
      if load.Err? {
        return Fail(load.error);
      }
      Put(load.value);
    }

    method VisitStore(e: Expr) returns (r: Outcome)
      requires e.Store?
      modifies this, tables, maker
      ensures Step(Snapshot(), r) == GenStore(old(Snapshot()), e)
      decreases e, 3
    {
      r := Traverse(e.ptr);
      if r.Fail? {
        return;
      }
      EmitOffset(e.offset);
      r := Traverse(e.value);
      if r.Fail? {
        return;
      }
      Put([Op(Swap)]);
      var store := StoreCode(e.valueType, e.bytes);
      if store.Err? {
        return Fail(store.error);
      }
      Put(store.value);
    }

    method VisitConst(lit: Literal) returns (r: Outcome)
      modifies this
      ensures Step(Snapshot(), r) == GenConst(old(Snapshot()), lit)
    {
      match lit {
        case I32Lit(v) =>
          if 0 <= v <= 255 {
            Put([PushByte(v)]);
          } else if 0 <= v <= U30Max {
            Put([WithIndex(PushShort, v)]);
          } else {
            Put([PushInt(v)]);
          }
          r := Pass;
        case F32Lit(d) =>
          Put([FloatPush(d)]);
          r := Pass;
        case F64Lit(d) =>
          Put([FloatPush(d)]);
          r := Pass;
        case I64Lit(_) =>
          r := Fail(UnexpectedType);
      }
    }

    method HelperCall1(e: Expr, helper: string, tail: seq<Instr>) returns (r: Outcome)
      requires e.Unary?
      modifies this, tables, maker
      ensures Step(Snapshot(), r) == GenHelper1(old(Snapshot()), e, helper, tail)
      decreases e, 2
    {
      Put([Op(GetLocal0)]);
      var index := tables.MethodIndex(helper);
      if index.Err? {
        return Fail(index.error);
      }
      r := TraverseThen(e.value, [WithCall(CallMethod, index.value, 1)] + tail);
    }

    method ScratchCall(e: Expr, store: string, load: string, convert: FixedOp) returns (r: Outcome)
      requires e.Unary?
      modifies this, tables, maker
      ensures Step(Snapshot(), r) == GenScratch(old(Snapshot()), e, store, load, convert)
      decreases e, 2
    {
      ghost var s0 := Snapshot();
      var index := tables.MethodIndex(store);
      if index.Err? {
        return Fail(index.error);
      }
      Put([Op(GetLocal0)]);
      r := TraverseThen(e.value, [WithCall(CallMethod, index.value, 1), Op(Pop)]);
      if r.Fail? {
        return;
      }
      r := ScratchLoad(load, convert);
    }

    /** The load helper's call and the conversion of its result. */
    method ScratchLoad(load: string, convert: FixedOp) returns (r: Outcome)
      modifies this
      ensures Step(Snapshot(), r) == GenScratchLoad(old(Snapshot()), load, convert)
    {
      var index := tables.MethodIndex(load);
      if index.Err? {
        return Fail(index.error);
      }
      Put([Op(GetLocal0), WithCall(CallMethod, index.value, 0), Op(convert)]);
      r := Pass;
    }

    method VisitUnary(e: Expr) returns (r: Outcome)
      requires e.Unary?
      modifies this, tables, maker
      ensures Step(Snapshot(), r) == GenUnary(old(Snapshot()), e)
      decreases e, 3
    {
      match e.uop {
        case ClzInt32 => r := HelperCall1(e, "__wasm2swf_clz32", [Op(ConvertI)]);
        case CtzInt32 => r := Fail(Unsupported("i32 unary"));
        case PopcntInt32 => r := Fail(Unsupported("i32 unary"));
        case NegFloat => r := TraverseThen(e.value, [Op(Negate)]);
        case AbsFloat => r := HelperCall1(e, "__wasm2swf_abs", []);
        case CeilFloat => r := HelperCall1(e, "__wasm2swf_ceil", []);
        case FloorFloat => r := HelperCall1(e, "__wasm2swf_floor", []);
        case TruncFloat => r := Fail(Unsupported("trunc"));
        case NearestFloat => r := Fail(Unsupported("nearest"));
        case SqrtFloat => r := HelperCall1(e, "__wasm2swf_sqrt", []);
        case EqZInt32 => r := TraverseThen(e.value, [PushByte(0), Op(StrictEquals), Op(ConvertI)]);
        case TruncSFloatToInt32 => r := TraverseThen(e.value, [Op(ConvertI)]);
        case TruncUFloatToInt32 => r := TraverseThen(e.value, [Op(ConvertU)]);
        case ReinterpretFloat32 =>
          r := ScratchCall(e, "wasm2js_scratch_store_f32", "wasm2js_scratch_load_i32", ConvertI);
        case ReinterpretFloat64 => r := Fail(Unsupported("reinterpret f64"));
        case ConvertSInt32ToFloat => r := TraverseThen(e.value, [Op(ConvertD)]);
        case ConvertUInt32ToFloat => r := TraverseThen(e.value, [Op(ConvertU), Op(ConvertD)]);
        case PromoteOrDemote => r := TraverseThen(e.value, []);
        case ReinterpretInt32 =>
          r := ScratchCall(e, "wasm2js_scratch_store_i32", "wasm2js_scratch_load_f32", ConvertD);
        case ReinterpretInt64 => r := Fail(Unsupported("reinterpret int"));
        case OtherUnary(_) => r := Fail(Unsupported("unary op"));
      }
    }

    method StepOp(e: Expr, plusOne: FixedOp, minusOne: FixedOp, general: FixedOp) returns (r: Outcome)
      requires e.Binary?
      modifies this, tables, maker
      ensures Step(Snapshot(), r) == GenStep(old(Snapshot()), e, plusOne, minusOne, general)
      decreases e, 2
    {
      ghost var s0 := Snapshot();
      r := Traverse(e.left);
      ghost var t := Step(Snapshot(), r);
      assert t == Gen(s0, e.left);
      if r.Fail? {
        return;
      }
      assert GenStep(s0, e, plusOne, minusOne, general) ==
        if IsI32Const(e.right, 1) then Done(Emit(t.st, [Op(plusOne)]))
        else if IsI32Const(e.right, -1) then Done(Emit(t.st, [Op(minusOne)]))
        else GenThen(t.st, e.right, [Op(general)]);
      if IsI32Const(e.right, 1) {
        Put([Op(plusOne)]);
      } else if IsI32Const(e.right, -1) {
        Put([Op(minusOne)]);
      } else {
        r := TraverseThen(e.right, [Op(general)]);
      }
    }

    method HelperCall2(e: Expr, helper: string) returns (r: Outcome)
      requires e.Binary?
      modifies this, tables, maker
      ensures Step(Snapshot(), r) == GenHelper2(old(Snapshot()), e, helper)
      decreases e, 2
    {
      Put([Op(GetLocal0)]);
      var index := tables.MethodIndex(helper);
      if index.Err? {
        return Fail(index.error);
      }
      r := Operands(e, false);
      if r.Fail? {
        return;
      }
      Put([WithCall(CallMethod, index.value, 2)]);
    }

    method VisitBinary(e: Expr) returns (r: Outcome)
      requires e.Binary?
      modifies this, tables, maker
      ensures Step(Snapshot(), r) == GenBinary(old(Snapshot()), e)
      decreases e, 3
    {
      if Arithmetic(e.bop).Some? {
        var (unsigned, tail) := Arithmetic(e.bop).value;
        r := Operands(e, unsigned);
        if r.Fail? {
          return;
        }
        Put(tail);
        return;
      }
      match e.bop {
        case AddInt32 => r := StepOp(e, IncrementI, DecrementI, AddI);
        case SubInt32 => r := StepOp(e, DecrementI, IncrementI, SubtractI);
        case CopySignFloat =>
          r := Operands(e, false);
          if r.Pass? {
            r := Fail(Unsupported("copy sign"));
          }
        case MinFloat => r := HelperCall2(e, "__wasm2swf_min");
        case MaxFloat => r := HelperCall2(e, "__wasm2swf_max");
        case RotLInt32 => r := Fail(Unsupported("rotate"));
        case RotRInt32 => r := Fail(Unsupported("rotate"));
        case _ => r := Fail(Unsupported("binary op"));
      }
    }

    method VisitSelect(e: Expr) returns (r: Outcome)
      requires e.Select?
      modifies this, tables, maker
      ensures Step(Snapshot(), r) == GenSelect(old(Snapshot()), e)
      decreases e, 3
    {
      r := Traverse(e.ifTrue);
      if r.Fail? {
        return;
      }
      r := Traverse(e.ifFalse);
      if r.Fail? {
        return;
      }
      r := Traverse(e.condition);
      if r.Fail? {
        return;
      }
      var l := maker.New(None);
      Put([Branch(IfTrue, l), Op(Swap), Place(l), Op(Pop)]);
    }

    method VisitReturn(e: Expr) returns (r: Outcome)
      requires e.Return?
      modifies this, tables, maker
      ensures Step(Snapshot(), r) == GenReturn(old(Snapshot()), e)
      decreases e, 3
    {
      if e.result.Some? {
        r := TraverseThen(e.result.value, [Op(ReturnValue)]);
      } else {
        Put([Op(ReturnVoid)]);
        r := Pass;
      }
    }

    method VisitMemoryGrow(e: Expr) returns (r: Outcome)
      requires e.MemoryGrow?
      modifies this, tables, maker
      ensures Step(Snapshot(), r) == GenMemoryGrow(old(Snapshot()), e)
      decreases e, 3
    {
      var index := tables.MethodIndex("__wasm2swf_memory_grow");
      if index.Err? {
        return Fail(index.error);
      }
      Put([Op(GetLocal0)]);
      r := TraverseThen(e.delta, [WithCall(CallMethod, index.value, 1), Op(ConvertI)]);
    }

    method VisitMemorySize() returns (r: Outcome)
      modifies this
      ensures Step(Snapshot(), r) == GenMemorySize(old(Snapshot()))
    {
      var index := tables.MethodIndex("__wasm2swf_memory_size");
      if index.Err? {
        return Fail(index.error);
      }
      Put([Op(GetLocal0), WithCall(CallMethod, index.value, 0), Op(ConvertI)]);
      r := Pass;
    }

    /** The loop that gives each declared local its zero: registers `base + 1` on, after
        `this` and the parameters. */
    method InitLocals(vars: seq<string>, base: nat) returns (r: Outcome)
      modifies this
      ensures Step(Snapshot(), r) == GenInit(old(Snapshot()), vars, base, 0)
    {
      var i := base;
      while i < base + |vars|
        invariant base <= i <= base + |vars|
        invariant GenInit(Snapshot(), vars, base, i - base) == GenInit(old(Snapshot()), vars, base, 0)
      {
        var t := vars[i - base];
        var index := i + 1;
        if t == "int" {
          Put([PushByte(0), SetLocal(index)]);
        } else if t == "Number" {
          Put([PushDouble(PositiveZero), SetLocal(index)]);
        } else {
          return Fail(UnexpectedType);
        }
        i := i + 1;
      }
      r := Pass;
    }

    /** The part of `convertFunction` that emits code, once the signature is known. */
    method ConvertBody(f: Func, sig: Signature) returns (r: Outcome)
      modifies this, tables, maker
      ensures Step(Snapshot(), r) == GenFunction(old(Snapshot()), f, sig)
    {
      if f.importModule != "" {
        return Pass;
      }
      r := InitLocals(sig.vars, |sig.args|);
      if r.Fail? {
        return;
      }
      if f.body.Some? {
        r := Traverse(f.body.value);
        if r.Fail? {
          return;
        }
      }
      if f.results == NoneType {
        Put([Op(ReturnVoid)]);
      }
      r := Pass;
    }
  }
}
