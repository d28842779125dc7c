/** The input of the code generator: the fields of binaryen's expression and function
    records that the `visit*` callbacks of index.js read. binaryen itself (parsing,
    optimisation, `getExpressionInfo`) is not part of this model; a value of `Expr` stands
    for the tree that `getExpressionInfo` exposes one node at a time. */
module WasmIr {
  import opened Bytes

  /** binaryen value types after i64 lowering; `I64` remains so that the error paths of
      the type switches are reachable. */
  datatype ValType = NoneType | I32 | I64 | F32 | F64

  /** The value of a `Const` node. */
  datatype Literal = I32Lit(i: int) | I64Lit(l: int) | F32Lit(f: Double) | F64Lit(d: Double)

  /** The unary operators `visitUnary` and `visitIf` distinguish. The f32 and f64
      variants of an operator share one constructor: every case of the source lists them
      together. */
  datatype UnaryOp =
    | ClzInt32 | CtzInt32 | PopcntInt32
    | NegFloat | AbsFloat | CeilFloat | FloorFloat | TruncFloat | NearestFloat | SqrtFloat
    | EqZInt32
    | TruncSFloatToInt32 | TruncUFloatToInt32
    | ReinterpretFloat32 | ReinterpretFloat64
    | ConvertSInt32ToFloat | ConvertUInt32ToFloat
    | PromoteOrDemote
    | ReinterpretInt32 | ReinterpretInt64
    | OtherUnary(code: int)

  /** The binary operators `visitBinary` and `visitIf` distinguish. */
  datatype BinaryOp =
    | AddInt32 | SubInt32 | MulInt32
    | DivSInt32 | DivUInt32 | RemSInt32 | RemUInt32
    | AndInt32 | OrInt32 | XorInt32 | ShlInt32 | ShrUInt32 | ShrSInt32 | RotLInt32 | RotRInt32
    | EqInt32 | NeInt32 | LtSInt32 | LtUInt32 | LeSInt32 | LeUInt32
    | GtSInt32 | GtUInt32 | GeSInt32 | GeUInt32
    | AddFloat | SubFloat | MulFloat | DivFloat | CopySignFloat | MinFloat | MaxFloat
    | EqFloat | NeFloat | LtFloat | LeFloat | GtFloat | GeFloat
    | OtherBinary(code: int)

  /** One binaryen expression node with the fields its visitor reads. An empty `name`
      is binaryen's unnamed block or loop; `None` is an absent optional child. Renamed
      fields: a break's or switch's `value` is `carried`, a break's `condition` is
      `guard`, an if's `ifFalse` is `orElse`, a function's `module` is `importModule`.
      A `Host` node is `MemoryGrow` (with its one operand), `MemorySize` or `OtherHost`. */
  datatype Expr =
    | Block(name: string, children: seq<Expr>)
    | If(condition: Expr, ifTrue: Expr, orElse: Option<Expr>)
    | Loop(name: string, body: Expr)
    | Break(name: string, carried: Option<Expr>, guard: Option<Expr>)
    | Switch(names: seq<string>, defaultName: string, condition: Expr, carried: Option<Expr>)
    | Call(target: string, operands: seq<Expr>, resultType: ValType)
    | CallIndirect(callee: Expr, operands: seq<Expr>, resultType: ValType)
    | LocalGet(index: int)
    | LocalSet(index: int, value: Expr, isTee: bool)
    | GlobalGet(name: string, valueType: ValType)
      // `valueType` is the node's own `info.type`, which is `none` for `global.set`,
      // not the type of the global it writes
    | GlobalSet(name: string, value: Expr, valueType: ValType)
    | Load(valueType: ValType, bytes: int, isSigned: bool, offset: int, ptr: Expr)
    | Store(bytes: int, offset: int, ptr: Expr, value: Expr, valueType: ValType)
    | Const(literal: Literal)
    | Unary(uop: UnaryOp, value: Expr)
    | Binary(bop: BinaryOp, left: Expr, right: Expr)
    | Select(ifTrue: Expr, ifFalse: Expr, condition: Expr)
    | Drop(value: Expr)
    | Return(result: Option<Expr>)
    | MemoryGrow(delta: Expr)
    | MemorySize
    | OtherHost(code: int)
    | Nop
    | Unreachable
    | Unhandled(id: int)

  /** `binaryen.getFunctionInfo(func)`: an import has a nonempty `module`. */
  datatype Func = Func(name: string, importModule: string, params: seq<ValType>, results: ValType,
                       vars: seq<ValType>, body: Option<Expr>)
}
