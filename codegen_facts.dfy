/** What the callbacks of `convertFunction` (index.js:163-1094) guarantee: blocks and loops
    leave `labelStack` as they found it, code is only ever appended, constants and memory
    accesses are lowered by the rules of index.js, and the shapes that the `if`, `select`,
    `loop` and `local.set` rules emit. */
module CodeGenFacts {
  import opened Bytes
  import opened WasmIr
  import opened Assembler
  import opened Labels
  import opened Registry
  import opened CodeGen

  // ---------------------------------------------------------------- the label stack

  /** A callback that returns leaves the label stack as it found it, and every callback
      only appends to the code. */
  predicate Keeps(s: St, t: Step)
  {
    s.code <= t.st.code && (t.r.Pass? ==> t.st.stack == s.stack)
  }

  lemma EmitKeeps(s: St, instrs: seq<Instr>)
    ensures Keeps(s, Done(Emit(s, instrs)))
  {
  }

  /** Every node kind: the proof follows `traverse` into the callback of the kind. */
  lemma {:induction false} GenKeeps(s: St, e: Expr)
    ensures Keeps(s, Gen(s, e))
    decreases e, 4
  {
    match e
    case Block(_, _) => GenBlockKeeps(s, e);
    case If(_, _, _) => GenIfKeeps(s, e);
    case Loop(_, _) => GenLoopKeeps(s, e);
    case Break(_, _, _) => GenBreakKeeps(s, e);
    case Switch(_, _, _, _) => GenSwitchKeeps(s, e);
    case Call(_, _, _) => GenCallKeeps(s, e);
    case CallIndirect(_, _, _) => GenCallIndirectKeeps(s, e);
    case LocalGet(k) =>
    case LocalSet(_, _, _) => GenLocalSetKeeps(s, e);
    case GlobalGet(_, _) =>
    case GlobalSet(_, _, _) => GenGlobalSetKeeps(s, e);
    case Load(_, _, _, _, _) => GenLoadKeeps(s, e);
    case Store(_, _, _, _, _) => GenStoreKeeps(s, e);
    case Const(lit) =>
    case Unary(_, _) => GenUnaryKeeps(s, e);
    case Binary(_, _, _) => GenBinaryKeeps(s, e);
    case Select(_, _, _) => GenSelectKeeps(s, e);
    case Drop(_) =>
    case Return(_) => GenReturnKeeps(s, e);
    case MemoryGrow(_) => GenMemoryGrowKeeps(s, e);
    case MemorySize =>
    case OtherHost(_) =>
    case Nop =>
    case Unreachable =>
    case Unhandled(_) =>
  }

  lemma {:induction false} GenListKeeps(s: St, es: seq<Expr>, i: nat)
    requires i <= |es|
    ensures Keeps(s, GenList(s, es, i))
    decreases es, |es| - i
  {
    if i < |es| {
      var t := Gen(s, es[i]);
      GenKeeps(s, es[i]);
      if t.r.Pass? {
        GenListKeeps(t.st, es, i + 1);
      }
    }
  }

  lemma {:induction false} GenThenKeeps(s: St, x: Expr, tail: seq<Instr>)
    ensures Keeps(s, GenThen(s, x, tail))
    decreases x, 5
  {
    GenKeeps(s, x);
  }

  /** A successful `visitBlock` leaves the label stack as it found it (the label it pushes
      is popped again) and only appends to the code. */
  lemma {:induction false} GenBlockKeeps(s: St, e: Expr)
    requires e.Block?
    ensures Keeps(s, GenBlock(s, e))
    decreases e, 3
  {
    var name := if e.name == "" then "block" + NatToString(s.blocks) else e.name;
    var blocks := if e.name == "" then s.blocks + 1 else s.blocks;
    var (l, c) := NewLabel(s.counters, Some(name));
    var s1 := s.(blocks := blocks, counters := c, stack := s.stack + [l]);
    GenListKeeps(s1, e.children, 0);
    var t := GenList(s1, e.children, 0);
    if t.r.Pass? {
      assert PopLabel(t.st.stack) == s.stack;
    }
  }

  lemma {:induction false} GenIfKeeps(s: St, e: Expr)
    requires e.If?
    ensures Keeps(s, GenIf(s, e))
    decreases e, 3
  {
    var (ifEnd, c) := NewLabel(s.counters, None);
    var s0 := s.(counters := c);
    GenConditionKeeps(s0, e.condition, ifEnd);
    var t := GenCondition(s0, e.condition, ifEnd);
    if t.r.Pass? {
      GenKeeps(t.st, e.ifTrue);
      var u := Gen(t.st, e.ifTrue);
      if u.r.Pass? && e.orElse.Some? {
        var s1 := Emit(u.st, [Place(ifEnd)]);
        var (elseEnd, c2) := NewLabel(s1.counters, None);
        GenKeeps(Emit(s1.(counters := c2), [Branch(Jump, elseEnd)]), e.orElse.value);
      }
    }
  }

  lemma {:induction false} GenConditionKeeps(s: St, c: Expr, ifEnd: Label)
    ensures Keeps(s, GenCondition(s, c, ifEnd))
    decreases c, 6
  {
    if c.Binary? && Fused(c.bop).Some? {
      GenOperandsKeeps(s, c, Fused(c.bop).value.1);
    } else if c.Unary? && c.uop.EqZInt32? {
      GenThenKeeps(s, c.value, [PushByte(0), Branch(IfStrictNe, ifEnd)]);
    } else {
      GenThenKeeps(s, c, [Branch(IfFalse, ifEnd)]);
    }
  }

  lemma {:induction false} GenOperandsKeeps(s: St, e: Expr, unsigned: bool)
    requires e.Binary?
    ensures Keeps(s, GenOperands(s, e, unsigned))
    decreases e, 1
  {
    GenKeeps(s, e.left);
    var t := Gen(s, e.left);
    if t.r.Pass? {
      GenKeeps(Emit(t.st, Unsigned(unsigned)), e.right);
    }
  }

  /** A successful `visitLoop` leaves the label stack as it found it (the start label it
      pushes is popped again) and only appends to the code. */
  lemma {:induction false} GenLoopKeeps(s: St, e: Expr)
    requires e.Loop?
    ensures Keeps(s, GenLoop(s, e))
    decreases e, 3
  {
    var (start, c) := NewLabel(s.counters, Some(e.name));
    var s1 := Emit(s.(counters := c, stack := s.stack + [start]), [Place(start)]);
    GenKeeps(s1, e.body);
    var t := Gen(s1, e.body);
    if t.r.Pass? {
      assert PopLabel(t.st.stack) == s.stack;
    }
  }

  lemma {:induction false} GenBreakKeeps(s: St, e: Expr)
    requires e.Break?
    ensures Keeps(s, GenBreak(s, e))
    decreases e, 3
  {
    if LabelByName(s.stack, e.name).Ok? {
      if e.carried.Some? {
        GenKeeps(s, e.carried.value);
      }
      var t := if e.carried.Some? then Gen(s, e.carried.value) else Done(s);
      if t.r.Pass? && e.guard.Some? {
        GenThenKeeps(t.st, e.guard.value, [Branch(IfTrue, LabelByName(s.stack, e.name).value)]);
      }
    }
  }

  lemma {:induction false} GenSwitchKeeps(s: St, e: Expr)
    requires e.Switch?
    ensures Keeps(s, GenSwitch(s, e))
    decreases e, 3
  {
    if e.carried.None? {
      GenKeeps(s, e.condition);
    }
  }

  lemma {:induction false} GenCallKeeps(s: St, e: Expr)
    requires e.Call?
    ensures Keeps(s, GenCall(s, e))
    decreases e, 3
  {
    GenListKeeps(Emit(s, [Op(GetLocal0)]), e.operands, 0);
  }

  lemma {:induction false} GenCallIndirectKeeps(s: St, e: Expr)
    requires e.CallIndirect?
    ensures Keeps(s, GenCallIndirect(s, e))
    decreases e, 3
  {
    var s1 := Emit(s, [Op(GetLocal0), WithIndex(GetSlot, TableSlot)]);
    GenKeeps(s1, e.callee);
    var t := Gen(s1, e.callee);
    if t.r.Pass? {
      GenListKeeps(t.st, e.operands, 0);
    }
  }

  lemma {:induction false} GenLocalSetKeeps(s: St, e: Expr)
    requires e.LocalSet?
    ensures Keeps(s, GenLocalSet(s, e))
    decreases e, 3
  {
    var i := e.index + 1;
    if LocalStep(i, e.value) == 0 {
      GenThenKeeps(s, e.value, (if e.isTee then [Op(Dup)] else []) + [SetLocal(i)]);
    }
  }

  lemma {:induction false} GenGlobalSetKeeps(s: St, e: Expr)
    requires e.GlobalSet?
    ensures Keeps(s, GenGlobalSet(s, e))
    decreases e, 3
  {
    GenKeeps(Emit(s, [Op(GetLocal0)]), e.value);
  }

  lemma {:induction false} GenLoadKeeps(s: St, e: Expr)
    requires e.Load?
    ensures Keeps(s, GenLoad(s, e))
    decreases e, 3
  {
    GenKeeps(s, e.ptr);
  }

  lemma {:induction false} GenStoreKeeps(s: St, e: Expr)
    requires e.Store?
    ensures Keeps(s, GenStore(s, e))
    decreases e, 3
  {
    GenKeeps(s, e.ptr);
    var t := Gen(s, e.ptr);
    if t.r.Pass? {
      GenKeeps(Emit(t.st, OffsetCode(e.offset)), e.value);
    }
  }

  lemma {:induction false} GenHelper1Keeps(s: St, e: Expr, helper: string, tail: seq<Instr>)
    requires e.Unary?
    ensures Keeps(s, GenHelper1(s, e, helper, tail))
    decreases e, 2
  {
    var s1 := Emit(s, [Op(GetLocal0)]);
    var index := LookupMethod(s1.methods, helper);
    if index.Ok? {
      GenThenKeeps(s1, e.value, [WithCall(CallMethod, index.value, 1)] + tail);
    }
  }

  lemma {:induction false} GenScratchKeeps(s: St, e: Expr, store: string, load: string, convert: FixedOp)
    requires e.Unary?
    ensures Keeps(s, GenScratch(s, e, store, load, convert))
    decreases e, 2
  {
    var i1 := LookupMethod(s.methods, store);
    if i1.Ok? {
      var s1 := Emit(s, [Op(GetLocal0)]);
      var t := GenThen(s1, e.value, [WithCall(CallMethod, i1.value, 1), Op(Pop)]);
      GenThenKeeps(s1, e.value, [WithCall(CallMethod, i1.value, 1), Op(Pop)]);
      if t.r.Pass? {
        GenScratchLoadKeeps(t.st, load, convert);
      }
    }
  }

  lemma GenScratchLoadKeeps(s: St, load: string, convert: FixedOp)
    ensures Keeps(s, GenScratchLoad(s, load, convert))
  {
  }

  lemma {:induction false} GenUnaryKeeps(s: St, e: Expr)
    requires e.Unary?
    ensures Keeps(s, GenUnary(s, e))
    decreases e, 3
  {
    match e.uop
    case ClzInt32 => GenHelper1Keeps(s, e, "__wasm2swf_clz32", [Op(ConvertI)]);
    case NegFloat => GenThenKeeps(s, e.value, [Op(Negate)]);
    case AbsFloat => GenHelper1Keeps(s, e, "__wasm2swf_abs", []);
    case CeilFloat => GenHelper1Keeps(s, e, "__wasm2swf_ceil", []);
    case FloorFloat => GenHelper1Keeps(s, e, "__wasm2swf_floor", []);
    case SqrtFloat => GenHelper1Keeps(s, e, "__wasm2swf_sqrt", []);
    case EqZInt32 => GenThenKeeps(s, e.value, [PushByte(0), Op(StrictEquals), Op(ConvertI)]);
    case TruncSFloatToInt32 => GenThenKeeps(s, e.value, [Op(ConvertI)]);
    case TruncUFloatToInt32 => GenThenKeeps(s, e.value, [Op(ConvertU)]);
    case ReinterpretFloat32 =>
      GenScratchKeeps(s, e, "wasm2js_scratch_store_f32", "wasm2js_scratch_load_i32", ConvertI);
    case ConvertSInt32ToFloat => GenThenKeeps(s, e.value, [Op(ConvertD)]);
    case ConvertUInt32ToFloat => GenThenKeeps(s, e.value, [Op(ConvertU), Op(ConvertD)]);
    case PromoteOrDemote => GenThenKeeps(s, e.value, []);
    case ReinterpretInt32 =>
      GenScratchKeeps(s, e, "wasm2js_scratch_store_i32", "wasm2js_scratch_load_f32", ConvertD);
    case _ =>
  }

  lemma {:induction false} GenStepKeeps(s: St, e: Expr, plusOne: FixedOp, minusOne: FixedOp, general: FixedOp)
    requires e.Binary?
    ensures Keeps(s, GenStep(s, e, plusOne, minusOne, general))
    decreases e, 2
  {
    GenKeeps(s, e.left);
    var t := Gen(s, e.left);
    if t.r.Pass? {
      GenThenKeeps(t.st, e.right, [Op(general)]);
    }
  }

  lemma {:induction false} GenHelper2Keeps(s: St, e: Expr, helper: string)
    requires e.Binary?
    ensures Keeps(s, GenHelper2(s, e, helper))
    decreases e, 2
  {
    GenOperandsKeeps(Emit(s, [Op(GetLocal0)]), e, false);
  }

  lemma {:induction false} GenBinaryKeeps(s: St, e: Expr)
    requires e.Binary?
    ensures Keeps(s, GenBinary(s, e))
    decreases e, 3
  {
    if Arithmetic(e.bop).Some? {
      GenOperandsKeeps(s, e, Arithmetic(e.bop).value.0);
    } else {
      match e.bop
      case AddInt32 => GenStepKeeps(s, e, IncrementI, DecrementI, AddI);
      case SubInt32 => GenStepKeeps(s, e, DecrementI, IncrementI, SubtractI);
      case CopySignFloat => GenOperandsKeeps(s, e, false);
      case MinFloat => GenHelper2Keeps(s, e, "__wasm2swf_min");
      case MaxFloat => GenHelper2Keeps(s, e, "__wasm2swf_max");
      case _ =>
    }
  }

  lemma {:induction false} GenSelectKeeps(s: St, e: Expr)
    requires e.Select?
    ensures Keeps(s, GenSelect(s, e))
    decreases e, 3
  {
    GenKeeps(s, e.ifTrue);
    var t := Gen(s, e.ifTrue);
    if t.r.Pass? {
      GenKeeps(t.st, e.ifFalse);
      var u := Gen(t.st, e.ifFalse);
      if u.r.Pass? {
        GenKeeps(u.st, e.condition);
      }
    }
  }

  lemma {:induction false} GenReturnKeeps(s: St, e: Expr)
    requires e.Return?
    ensures Keeps(s, GenReturn(s, e))
    decreases e, 3
  {
    if e.result.Some? {
      GenThenKeeps(s, e.result.value, [Op(ReturnValue)]);
    }
  }

  lemma {:induction false} GenMemoryGrowKeeps(s: St, e: Expr)
    requires e.MemoryGrow?
    ensures Keeps(s, GenMemoryGrow(s, e))
    decreases e, 3
  {
    var index := LookupMethod(s.methods, "__wasm2swf_memory_grow");
    if index.Ok? {
      GenThenKeeps(Emit(s, [Op(GetLocal0)]), e.delta, [WithCall(CallMethod, index.value, 1), Op(ConvertI)]);
    }
  }

  /** A whole function: the label stack it ends with is the one it started with (empty, at
      the start of `convertFunction`). */
  lemma GenFunctionKeeps(s: St, f: Func, sig: Signature)
    ensures Keeps(s, GenFunction(s, f, sig))
  {
    if f.importModule == "" {
      GenInitKeeps(s, sig.vars, |sig.args|, 0);
      var t := GenInit(s, sig.vars, |sig.args|, 0);
      if t.r.Pass? && f.body.Some? {
        GenKeeps(t.st, f.body.value);
      }
    }
  }

  lemma {:induction false} GenInitKeeps(s: St, vars: seq<string>, base: nat, k: nat)
    requires k <= |vars|
    ensures Keeps(s, GenInit(s, vars, base, k))
    decreases |vars| - k
  {
    if k < |vars| && ZeroFor(vars[k]).Ok? {
      GenInitKeeps(Emit(s, [ZeroFor(vars[k]).value, SetLocal(base + k + 1)]), vars, base, k + 1);
    }
  }

  // ---------------------------------------------------------------- labels

  /** `labelByName` finds a label exactly when one on the stack has the name, and throws
      'cannot find label' otherwise. */
  lemma LabelByNameFacts(stack: seq<Label>, name: string)
    ensures LabelByName(stack, name).Err? <==> forall k :: 0 <= k < |stack| ==> stack[k].name != name
    ensures LabelByName(stack, name).Err? ==> LabelByName(stack, name).error == UnknownLabel(name)
    ensures LabelByName(stack, name).Ok? ==>
              LabelByName(stack, name).value in stack && LabelByName(stack, name).value.name == name
  {
  }

  /** A `br` to a name that no enclosing block or loop declares stops the conversion with
      that error and emits nothing. */
  lemma BreakToUnknownLabel(s: St, e: Expr)
    requires e.Break? && forall k :: 0 <= k < |s.stack| ==> s.stack[k].name != e.name
    ensures GenBreak(s, e) == Stop(s, UnknownLabel(e.name))
  {
    LabelByNameFacts(s.stack, e.name);
  }

  // ---------------------------------------------------------------- constants

  /** `visitConst` for i32: `pushbyte` for 0..255, `pushshort` up to 2^30 - 1, and
      otherwise `pushint` of a pool entry. */
  lemma IntPushForms(v: int)
    ensures 0 <= v <= 255 ==> IntPush(v) == PushByte(v)
    ensures 255 < v <= U30Max ==> IntPush(v) == WithIndex(PushShort, v)
    ensures (v < 0 || v > U30Max) ==> IntPush(v) == PushInt(v)
  {
  }

  /** `visitConst` of every literal: floats push NaN or a pool double, i64 is refused. */
  lemma ConstForms(s: St, lit: Literal)
    ensures lit.I32Lit? ==> GenConst(s, lit) == Done(Emit(s, [IntPush(lit.i)]))
    ensures (lit.F32Lit? && lit.f.NaN?) || (lit.F64Lit? && lit.d.NaN?) ==>
              GenConst(s, lit) == Done(Emit(s, [Op(PushNaN)]))
    ensures lit.F32Lit? && lit.f.Num? ==> GenConst(s, lit) == Done(Emit(s, [PushDouble(lit.f)]))
    ensures lit.F64Lit? && lit.d.Num? ==> GenConst(s, lit) == Done(Emit(s, [PushDouble(lit.d)]))
    ensures lit.I64Lit? ==> GenConst(s, lit) == Stop(s, UnexpectedType)
  {
  }

  // ---------------------------------------------------------------- conditions

  /** A comparison condition of `visitIf` becomes its operands and ONE branch to the end
      label, taken when the comparison is false; the unsigned ones convert each operand. */
  lemma FusedCondition(s: St, op: BinaryOp, x: Expr, y: Expr, ifEnd: Label)
    requires Fused(op).Some?
    ensures var t := Gen(s, x);
      var u := Gen(Emit(t.st, Unsigned(Fused(op).value.1)), y);
      t.r.Pass? && u.r.Pass? ==>
        GenCondition(s, Binary(op, x, y), ifEnd) ==
          Done(Emit(u.st, Unsigned(Fused(op).value.1) + [Branch(Fused(op).value.0, ifEnd)]))
  {
  }

  /** `eqz x` as a condition is `x; pushbyte 0; ifstrictne`, and any other condition is
      evaluated and followed by `iffalse`. */
  lemma OtherConditions(s: St, c: Expr, ifEnd: Label)
    ensures c.Unary? && c.uop.EqZInt32? ==>
      GenCondition(s, c, ifEnd) == GenThen(s, c.value, [PushByte(0), Branch(IfStrictNe, ifEnd)])
    ensures !(c.Binary? && Fused(c.bop).Some?) && !(c.Unary? && c.uop.EqZInt32?) ==>
      GenCondition(s, c, ifEnd) == GenThen(s, c, [Branch(IfFalse, ifEnd)])
  {
  }

  /** An `if` without an else arm: condition, then-arm, and the end label placed right
      after it; the label made for it is new. */
  lemma IfWithoutElse(s: St, e: Expr)
    requires e.If? && e.orElse.None?
    ensures var (ifEnd, c) := NewLabel(s.counters, None);
      var t := GenCondition(s.(counters := c), e.condition, ifEnd);
      var u := Gen(t.st, e.ifTrue);
      t.r.Pass? && u.r.Pass? ==> GenIf(s, e) == Done(Emit(u.st, [Place(ifEnd)]))
  {
  }

  // ---------------------------------------------------------------- locals

  /** `local.get k` reads register k + 1, register 0 being `this`. */
  lemma LocalGetShifts(s: St, k: int)
    ensures Gen(s, LocalGet(k)) == Done(Emit(s, [GetLocal(k + 1)]))
  {
  }

  /** A `local.set k` that is not fused: the value, `dup` when it is a tee, then
      `setlocal(k + 1)`. */
  lemma LocalSetShifts(s: St, k: int, v: Expr, tee: bool)
    requires LocalStep(k + 1, v) == 0
    ensures GenLocalSet(s, LocalSet(k, v, tee)) ==
            GenThen(s, v, (if tee then [Op(Dup)] else []) + [SetLocal(k + 1)])
  {
  }

  /** Every declared local is set to zero first: `pushbyte 0` for int and `pushdouble 0`
      for Number, into the registers after `this` and the parameters. */
  lemma {:induction false} InitLocals(s: St, vars: seq<string>, base: nat, k: nat)
    requires k <= |vars|
    requires forall j :: k <= j < |vars| ==> vars[j] == "int" || vars[j] == "Number"
    ensures GenInit(s, vars, base, k).r.Pass?
    ensures |GenInit(s, vars, base, k).st.code| == |s.code| + 2 * (|vars| - k)
    ensures forall j :: k <= j < |vars| ==>
      var c := GenInit(s, vars, base, k).st.code;
      && c[|s.code| + 2 * (j - k)] == (if vars[j] == "int" then PushByte(0) else PushDouble(PositiveZero))
      && c[|s.code| + 2 * (j - k) + 1] == SetLocal(base + j + 1)
    ensures GenInit(s, vars, base, k).st.code[..|s.code|] == s.code
    decreases |vars| - k
  {
    if k < |vars| {
      var s1 := Emit(s, [ZeroFor(vars[k]).value, SetLocal(base + k + 1)]);
      InitLocals(s1, vars, base, k + 1);
      var c := GenInit(s, vars, base, k).st.code;
      assert c == GenInit(s1, vars, base, k + 1).st.code;
      assert c[..|s1.code|] == s1.code;
      assert c[..|s.code|] == s1.code[..|s.code|];
      forall j | k <= j < |vars|
        ensures c[|s.code| + 2 * (j - k)] == (if vars[j] == "int" then PushByte(0) else PushDouble(PositiveZero))
        ensures c[|s.code| + 2 * (j - k) + 1] == SetLocal(base + j + 1)
      {
        if j == k {
          assert c[|s.code|] == s1.code[|s.code|];
          assert c[|s.code| + 1] == s1.code[|s.code| + 1];
        }
      }
    }
  }

  /** The fused increment as written compares the SHIFTED index k + 1 with the index
      of the `local.get`, so `local.set k (i32.add (local.get k) (i32.const 1))` is not
      fused: it is compiled as get, increment, set. */
  lemma IncrementNotFused(s: St, k: int)
    ensures var v := Binary(AddInt32, LocalGet(k), Const(I32Lit(1)));
      GenLocalSet(s, LocalSet(k, v, false)) ==
        Done(Emit(s, [GetLocal(k + 1), Op(IncrementI), SetLocal(k + 1)]))
  {
    var v := Binary(AddInt32, LocalGet(k), Const(I32Lit(1)));
    assert LocalStep(k + 1, v) == 0;
    var s1 := Emit(s, [GetLocal(k + 1)]);
    assert Gen(s, LocalGet(k)) == Done(s1);
    assert GenStep(s, v, IncrementI, DecrementI, AddI) == Done(Emit(s1, [Op(IncrementI)]));
    assert Gen(s, v) == GenBinary(s, v) == Done(Emit(s1, [Op(IncrementI)]));
    assert GenLocalSet(s, LocalSet(k, v, false)) == GenThen(s, v, [] + [SetLocal(k + 1)]);
  }

  /** ... while a set of local k from `local.get (k + 1)` plus 1 IS fused, into an
      in-place increment of register k + 1, local k's own register: local k becomes its
      old value plus 1 instead of local (k + 1)'s value plus 1. */
  lemma IncrementFusedWrongly(s: St, k: int)
    ensures var v := Binary(AddInt32, LocalGet(k + 1), Const(I32Lit(1)));
      GenLocalSet(s, LocalSet(k, v, false)) == Done(Emit(s, [WithIndex(IncLocalI, k + 1)]))
  {
    var v := Binary(AddInt32, LocalGet(k + 1), Const(I32Lit(1)));
    var e := LocalSet(k, v, false);
    assert LocalStep(e.index + 1, e.value) == 1;
    assert GenLocalSet(s, e) == Done(Emit(s, [WithIndex(IncLocalI, k + 1)] + []));
    assert [WithIndex(IncLocalI, k + 1)] + [] == [WithIndex(IncLocalI, k + 1)];
  }

  /** The test the fused increment evidently intends: the `local.get` reads the local
      being set. */
  function LocalStepIntended(k: int, v: Expr): (r: int)
    ensures r != 0 ==> v.Binary? && v.bop.AddInt32? && v == Binary(AddInt32, LocalGet(k), Const(I32Lit(r)))
    ensures r == 1 || r == -1 || r == 0
  {
    if v.Binary? && v.bop.AddInt32? && v.left.LocalGet? && v.left.index == k then
      if IsI32Const(v.right, 1) then 1 else if IsI32Const(v.right, -1) then -1 else 0
    else 0
  }

  /** With the intended test, `x = x + 1` is fused and `x = y + 1` never is. */
  lemma IntendedStepFusesSelf(k: int)
    ensures LocalStepIntended(k, Binary(AddInt32, LocalGet(k), Const(I32Lit(1)))) == 1
    ensures LocalStepIntended(k, Binary(AddInt32, LocalGet(k), Const(I32Lit(-1)))) == -1
    ensures forall j :: j != k ==> LocalStepIntended(k, Binary(AddInt32, LocalGet(j), Const(I32Lit(1)))) == 0
  {
  }

  // ---------------------------------------------------------------- memory

  /** A nonzero static offset is a constant push and `add_i` after the pointer. */
  lemma OffsetFolds(offset: int)
    ensures offset > 0 ==> OffsetCode(offset) == [IntPush(offset), Op(AddI)]
    ensures offset <= 0 ==> OffsetCode(offset) == []
  {
  }

  /** A store is pointer, offset, value, `swap`, then the store opcode chosen by type and
      width. */
  lemma StoreShape(s: St, e: Expr)
    requires e.Store?
    ensures var t := Gen(s, e.ptr);
      var u := Gen(Emit(t.st, OffsetCode(e.offset)), e.value);
      t.r.Pass? && u.r.Pass? && StoreCode(e.valueType, e.bytes).Ok? ==>
        GenStore(s, e) == Done(Emit(u.st, [Op(Swap)] + StoreCode(e.valueType, e.bytes).value))
  {
  }

  lemma StoreOpcodes(bytes: int)
    ensures StoreCode(I32, 1) == Ok([Op(Si8)]) && StoreCode(I32, 2) == Ok([Op(Si16)])
    ensures StoreCode(I32, 4) == Ok([Op(Si32)])
    ensures StoreCode(F32, bytes) == Ok([Op(Sf32)]) && StoreCode(F64, bytes) == Ok([Op(Sf64)])
    ensures bytes !in {1, 2, 4} ==> StoreCode(I32, bytes) == Err(Unsupported("store size"))
  {
  }

  /** Signed 8- and 16-bit loads are followed by the matching sign extension. */
  lemma LoadOpcodes(signed: bool, bytes: int)
    ensures LoadCode(I32, 1, signed) == Ok([Op(Li8)] + (if signed then [Op(Sxi8)] else []))
    ensures LoadCode(I32, 2, signed) == Ok([Op(Li16)] + (if signed then [Op(Sxi16)] else []))
    ensures LoadCode(I32, 4, signed) == Ok([Op(Li32)])
    ensures LoadCode(F32, bytes, signed) == Ok([Op(Lf32)]) && LoadCode(F64, bytes, signed) == Ok([Op(Lf64)])
  {
  }

  // ---------------------------------------------------------------- arithmetic and calls

  /** `x + 1` and `x + -1` become `increment_i` and `decrement_i` without the constant;
      for subtraction the two are swapped. */
  lemma AddSubOne(s: St, x: Expr)
    ensures var t := Gen(s, x);
      t.r.Pass? ==>
        && GenBinary(s, Binary(AddInt32, x, Const(I32Lit(1)))) == Done(Emit(t.st, [Op(IncrementI)]))
        && GenBinary(s, Binary(AddInt32, x, Const(I32Lit(-1)))) == Done(Emit(t.st, [Op(DecrementI)]))
        && GenBinary(s, Binary(SubInt32, x, Const(I32Lit(1)))) == Done(Emit(t.st, [Op(DecrementI)]))
        && GenBinary(s, Binary(SubInt32, x, Const(I32Lit(-1)))) == Done(Emit(t.st, [Op(IncrementI)]))
  {
  }

  /** A call's result is popped for void, converted with `convert_i` for i32 and with
      `convert_d` for f32 and f64. */
  lemma CallResultTails()
    ensures CallResult(NoneType) == Ok([Op(Pop)])
    ensures CallResult(I32) == Ok([Op(ConvertI)])
    ensures CallResult(F32) == Ok([Op(ConvertD)]) && CallResult(F64) == Ok([Op(ConvertD)])
    ensures CallResult(I64) == Err(UnexpectedType)
  {
  }

  // ---------------------------------------------------------------- select, drop, loops

  /** `visitSelect`: ifTrue, ifFalse, the condition, then `iftrue L; swap; label L; pop`
      with a new label L. */
  lemma SelectShape(s: St, e: Expr)
    requires e.Select?
    ensures var t := Gen(s, e.ifTrue);
      var u := Gen(t.st, e.ifFalse);
      var v := Gen(u.st, e.condition);
      var (l, c) := NewLabel(v.st.counters, None);
      t.r.Pass? && u.r.Pass? && v.r.Pass? ==>
        GenSelect(s, e) == Done(Emit(v.st.(counters := c), SelectTail(l)))
  {
  }

  function SelectTail(l: Label): seq<Instr>
  {
    [Branch(IfTrue, l), Op(Swap), Place(l), Op(Pop)]
  }

  /** `visitDrop` as written emits `pop` without visiting its operand, so nothing the
      operand would compute, or its side effects, appears in the code. */
  lemma DropSkipsOperand(s: St, x: Expr)
    ensures Gen(s, Drop(x)) == Done(Emit(s, [Op(Pop)]))
  {
  }

  /** `visitDrop` as evidently intended: the operand is converted, then `pop` discards
      the value it leaves. */
  function GenDropIntended(s: St, x: Expr): Step
  {
    GenThen(s, x, [Op(Pop)])
  }

  /** The intended `visitDrop` keeps the label stack and only appends; when the operand
      converts, its code comes first and `pop` last; and whenever the operand emits any
      code, the intended result differs from the one as written. */
  lemma DropIntendedFacts(s: St, x: Expr)
    ensures Keeps(s, GenDropIntended(s, x))
    ensures var t := Gen(s, x);
      t.r.Pass? ==> GenDropIntended(s, x) == Done(Emit(t.st, [Op(Pop)]))
    ensures var t := Gen(s, x);
      t.r.Pass? && |t.st.code| > |s.code| ==> GenDropIntended(s, x) != Gen(s, Drop(x))
  {
    GenThenKeeps(s, x, [Op(Pop)]);
    var t := Gen(s, x);
    if t.r.Pass? && |t.st.code| > |s.code| {
      assert |GenDropIntended(s, x).st.code| == |t.st.code| + 1;
      assert |Gen(s, Drop(x)).st.code| == |s.code| + 1;
    }
  }

  /** `visitNop` emits `nop`. */
  lemma NopEmits(s: St)
    ensures Gen(s, Expr.Nop) == Done(Emit(s, [Op(FixedOp.Nop)]))
  {
  }

  /** `visitUnreachable` as written emits nothing. */
  lemma UnreachableEmitsNothing(s: St)
    ensures Gen(s, Unreachable) == Done(s)
  {
  }

  /** `visitLoop` as written: the label, the body, and an unconditional jump back. */
  lemma LoopShape(s: St, name: string, body: Expr)
    ensures var (start, c) := NewLabel(s.counters, Some(name));
      var s1 := Emit(s.(counters := c, stack := s.stack + [start]), [Place(start)]);
      var t := Gen(s1, body);
      t.r.Pass? ==>
        GenLoop(s, Loop(name, body)) ==
          Done(Emit(t.st, [Branch(Jump, start)]).(stack := PopLabel(t.st.stack)))
  {
  }

  /** `visitIf` with an else arm as written: the end label of the then-arm is placed BEFORE
      the jump over the else arm, so the false branch lands on that jump. */
  lemma IfElseShape(s: St, e: Expr)
    requires e.If? && e.orElse.Some?
    ensures var (ifEnd, c) := NewLabel(s.counters, None);
      var t := GenCondition(s.(counters := c), e.condition, ifEnd);
      var u := Gen(t.st, e.ifTrue);
      var s1 := Emit(u.st, [Place(ifEnd)]);
      var (elseEnd, c2) := NewLabel(s1.counters, None);
      var v := Gen(Emit(s1.(counters := c2), [Branch(Jump, elseEnd)]), e.orElse.value);
      t.r.Pass? && u.r.Pass? && v.r.Pass? ==>
        && GenIf(s, e) == Done(Emit(v.st, [Place(elseEnd)]))
        && |u.st.code| + 2 <= |Emit(v.st, [Place(elseEnd)]).code|
        && Emit(v.st, [Place(elseEnd)]).code[|u.st.code|..|u.st.code| + 2] == [Place(ifEnd), Branch(Jump, elseEnd)]
  {
    var (ifEnd, c) := NewLabel(s.counters, None);
    var t := GenCondition(s.(counters := c), e.condition, ifEnd);
    var u := Gen(t.st, e.ifTrue);
    var s1 := Emit(u.st, [Place(ifEnd)]);
    var (elseEnd, c2) := NewLabel(s1.counters, None);
    var s2 := Emit(s1.(counters := c2), [Branch(Jump, elseEnd)]);
    var v := Gen(s2, e.orElse.value);
    if t.r.Pass? && u.r.Pass? && v.r.Pass? {
      GenKeeps(s2, e.orElse.value);
      var code := Emit(v.st, [Place(elseEnd)]).code;
      assert code[..|s2.code|] == s2.code;
      assert code[|u.st.code|] == s2.code[|u.st.code|];
      assert code[|u.st.code| + 1] == s2.code[|u.st.code| + 1];
    }
  }
}
