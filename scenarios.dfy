/** Whole functions through `convertFunction` (index.js:1025-1093): from the WebAssembly
    tree to the bytes of the method body's code. */
module Scenarios {
  import opened Bytes
  import opened WasmIr
  import opened ConstantPool
  import opened Assembler
  import opened CodeGen
  import opened Registry
  import opened Driver

  /** `(func $add (param i32 i32) (result i32) (return (i32.add (local.get 0) (local.get 1))))` */
  function AddFunc(): Func
  {
    Func("add", "", [I32, I32], I32, [],
         Some(Return(Some(Binary(AddInt32, LocalGet(0), LocalGet(1))))))
  }

  /** The generator emits the two register reads (registers 1 and 2, register 0 being
      `this`), `add_i` and `returnvalue`; no `returnvoid`, since the function returns a value. */
  lemma AddFunctionCode(s: St)
    requires s.code == []
    ensures GenFunction(s, AddFunc(), Signature(["int", "int"], "int", [])) ==
      Done(s.(code := [GetLocal(1), GetLocal(2), Op(AddI), Op(ReturnValue)]))
  {
    var e := Binary(AddInt32, LocalGet(0), LocalGet(1));
    var s1 := Emit(s, [GetLocal(1)]);
    var s2 := Emit(s1, [GetLocal(2)]);
    assert Gen(s, LocalGet(0)) == Done(s1);
    assert Gen(s1, LocalGet(1)) == Done(s2);
    assert GenStep(s, e, IncrementI, DecrementI, AddI) == GenThen(s1, LocalGet(1), [Op(AddI)]);
    assert GenThen(s1, LocalGet(1), [Op(AddI)]) == Done(Emit(s2, [Op(AddI)]));
    assert Gen(s, e) == Done(Emit(s2, [Op(AddI)]));
    var s3 := Emit(s2, [Op(AddI)]);
    assert GenThen(s, e, [Op(ReturnValue)]) == Done(Emit(s3, [Op(ReturnValue)]));
    assert Gen(s, Return(Some(e))) == Done(Emit(s3, [Op(ReturnValue)]));
  }

  /** Its code bytes are `getlocal_1 getlocal_2 add_i returnvalue`, and the function's
      AVM2 signature is `(int, int): int`. */
  lemma AddFunctionBytes(s: St, p: Pool)
    requires Sentinels(p) && s.code == []
    ensures var r := CompileFunction(AddFunc(), s, p);
      r.Ok? && r.value.code == [0xd1, 0xd2, 0xc5, 0x48] && r.value.pool == p
      && r.value.sig == Signature(["int", "int"], "int", [])
  {
    var sig := Signature(["int", "int"], "int", []);
    var ts := AvmTypes([I32, I32]);
    assert AvmType([I32, I32][0]).Ok? && AvmType([I32, I32][1]).Ok?;
    assert ts.value[0] == "int" && ts.value[1] == "int";
    assert |ts.value| == 2;
    assert ts.value == ["int", "int"];
    assert AvmTypes([]) == Ok([]);
    assert FunctionSignature(AddFunc()) == Ok(sig);
    AddFunctionCode(s);
    var code := [GetLocal(1), GetLocal(2), Op(AddI), Op(ReturnValue)];
    var a0 := Asm([], [], map[], p);
    var a1 := a0.(stream := [0xd1]);
    var a2 := a0.(stream := [0xd1, 0xd2]);
    var a3 := a0.(stream := [0xd1, 0xd2, 0xc5]);
    var a4 := a0.(stream := [0xd1, 0xd2, 0xc5, 0x48]);
    assert a0.stream + [0xd0 + 1] == a1.stream;
    assert a1.stream + [0xd0 + 2] == a2.stream;
    assert a2.stream + [FixedCode(AddI)] == a3.stream;
    assert a3.stream + [FixedCode(ReturnValue)] == a4.stream;
    assert Encode(a0, GetLocal(1)) == Ok(a1);
    assert Encode(a1, GetLocal(2)) == Ok(a2);
    assert Encode(a2, Op(AddI)) == Ok(a3);
    assert Encode(a3, Op(ReturnValue)) == Ok(a4);
    assert EncodeAll(a3, code[3..]) == Ok(a4) by {
      assert code[3..][1..] == [];
    }
    assert EncodeAll(a2, code[2..]) == Ok(a4) by {
      assert code[2..][1..] == code[3..];
    }
    assert EncodeAll(a1, code[1..]) == Ok(a4) by {
      assert code[1..][1..] == code[2..];
    }
    assert EncodeAll(a0, code) == Ok(a4);
  }
}
