/** The driver of index.js for one function: `convertFunction` compiles it, from the
    signature to the method records, and records it in the file (index.js:1025-1093). */
module Driver {
  import opened Bytes
  import opened WasmIr
  import opened ConstantPool
  import opened Assembler
  import opened AbcWriter
  import opened Labels
  import opened Registry
  import opened CodeGen
  import opened Translator

  /** A method body's code: the instructions as a fresh method builder on pool p emits
      them, then `toBytes` with its fixups applied; and the pool after the emission. */
  function Assemble(p: Pool, code: seq<Instr>): (r: Result<(seq<byte>, Pool)>)
    requires Sentinels(p)
    ensures r.Ok? ==> Sentinels(r.value.1) && Extends(p, r.value.1)
  {
    var a :- EncodeAll(Asm([], [], map[], p), code);
    EmitAllKeeps(Asm([], [], map[], p), code);
    var bytes :- PatchAll(a.stream, a.fixups, a.addresses);
    Ok((bytes, a.pool))
  }

  /** The generator's state when `convertFunction` starts: no code, no labels, the block
      counter at 0, and the shared counters and tables. */
  function Start(counters: Counters, globals: Globals, methods: Methods): St
  {
    St([], [], 0, counters, globals, methods)
  }

  /** What one function compiles to: its signature, the generator's final state, the body
      bytes and the pool they leave. */
  datatype Compiled = Compiled(sig: Signature, after: St, code: seq<byte>, pool: Pool)

  /** The first exception `convertFunction` meets, in the order the source meets them: an
      unnamed type in the signature, then an emitter's (the builder runs as the callbacks
      do, so its exceptions come first whenever they come before the generator's), then
      the generator's, then an unplaced label at `toBytes`. */
  function CompileFunction(f: Func, s: St, p: Pool): (r: Result<Compiled>)
    requires Sentinels(p)
  {
    var sig :- FunctionSignature(f);
    Compile(sig, GenFunction(s, f, sig), p)
  }

  /** The same once the signature is known and the callbacks have run with outcome g. */
  function Compile(sig: Signature, g: Step, p: Pool): (r: Result<Compiled>)
    requires Sentinels(p)
  {
    var a :- EncodeAll(Asm([], [], map[], p), g.st.code);
    if g.r.Fail? then Err(g.r.error) else
    EmitAllKeeps(Asm([], [], map[], p), g.st.code);
    Finish(sig, g.st, a)
  }

  /** The same once the code is in the builder, whose state is a. */
  function Finish(sig: Signature, after: St, a: Asm): (r: Result<Compiled>)
    requires AsmValid(a)
  {
    var bytes :- PatchAll(a.stream, a.fixups, a.addresses);
    Ok(Compiled(sig, after, bytes, a.pool))
  }

  /** Entry ns of pool p is what `file.namespace('')` interns: the kind is the string
      `''` and the name is the string `String(undefined)`. */
  predicate GlobalNamespace(p: Pool, ns: int)
  {
    && 0 <= ns < |p.namespaces|
    && p.namespaces[ns].kind == Str("")
    && p.namespaces[ns].name.Int?
    && 0 <= p.namespaces[ns].name.i < |p.strings|
    && p.strings[p.namespaces[ns].name.i] == "undefined"
  }

  /** Entry i of pool p is `file.qname(globalns, t)`: the AVM2 type name itself, not its
      string index, is the name. */
  predicate TypeName(p: Pool, i: int, ns: int, t: string)
  {
    0 <= i < |p.multinames| && p.multinames[i] == QName(Int(ns), Str(t))
  }

  /** A method record that names the function and its AVM2 types in pool p. */
  predicate NamesSignature(p: Pool, m: Method, name: string, sig: Signature, ns: int)
  {
    && GlobalNamespace(p, ns)
    && 0 <= m.name < |p.strings| && p.strings[m.name] == name
    && TypeName(p, m.returnType, ns, sig.result)
    && |m.paramTypes| == |sig.args|
    && forall k :: 0 <= k < |sig.args| ==> TypeName(p, m.paramTypes[k], ns, sig.args[k])
  }

  /** Entries of the pool keep their index as the pool grows. */
  lemma ExtendsKeepsString(p: Pool, q: Pool, i: int, name: string)
    requires Extends(p, q) && 0 <= i < |p.strings| && p.strings[i] == name
    ensures 0 <= i < |q.strings| && q.strings[i] == name
  {
    assert q.strings[..|p.strings|] == p.strings;
    assert q.strings[i] == q.strings[..|p.strings|][i];
  }

  lemma ExtendsKeepsNamespace(p: Pool, q: Pool, ns: int)
    requires Extends(p, q) && GlobalNamespace(p, ns)
    ensures GlobalNamespace(q, ns)
  {
    assert q.namespaces[..|p.namespaces|] == p.namespaces;
    assert q.namespaces[ns] == q.namespaces[..|p.namespaces|][ns];
    ExtendsKeepsString(p, q, p.namespaces[ns].name.i, "undefined");
  }

  lemma ExtendsKeepsTypeName(p: Pool, q: Pool, i: int, ns: int, t: string)
    requires Extends(p, q) && TypeName(p, i, ns, t)
    ensures TypeName(q, i, ns, t)
  {
    assert q.multinames[..|p.multinames|] == p.multinames;
    assert q.multinames[i] == q.multinames[..|p.multinames|][i];
  }

  lemma ExtendsTransitive(p: Pool, q: Pool, o: Pool)
    requires Extends(p, q) && Extends(q, o)
    ensures Extends(p, o)
  {
  }

  /** `file.namespace('')`. */
  method GlobalNs(file: AbcBuilder) returns (ns: nat)
    requires file.Valid()
    modifies file.cpool
    ensures file.Valid() && Extends(old(file.cpool.Snapshot()), file.cpool.Snapshot())
    ensures GlobalNamespace(file.cpool.Snapshot(), ns)
  {
    ghost var p0 := file.cpool.Snapshot();
    InternStringFacts(p0, "undefined");
    ghost var (u, p1) := InternString(p0, "undefined");
    InternNamespaceFacts(p1, ConstantPool.Namespace.Namespace(Str(""), Int(u)));
    ns := file.Namespace(Str(""), Undefined);
    NamespaceEqualsIsIdentity(file.cpool.Snapshot().namespaces[ns], ConstantPool.Namespace.Namespace(Str(""), Int(u)));
  }

  /** `file.qname(globalns, t)`. */
  method TypeNameOf(file: AbcBuilder, ns: nat, t: string) returns (index: nat)
    requires file.Valid()
    modifies file.cpool
    ensures file.Valid() && Extends(old(file.cpool.Snapshot()), file.cpool.Snapshot())
    ensures TypeName(file.cpool.Snapshot(), index, ns, t)
  {
    InternMultinameFacts(file.cpool.Snapshot(), QName(Int(ns), Str(t)));
    index := file.Multiname(QName(Int(ns), Str(t)));
    MultinameEqualsIsIdentity(file.cpool.Snapshot().multinames[index], QName(Int(ns), Str(t)));
  }

  /** `argTypes.map((type) => file.qname(globalns, type))`. */
  method TypeNames(file: AbcBuilder, ns: nat, types: seq<string>) returns (indexes: seq<int>)
    requires file.Valid()
    modifies file.cpool
    ensures file.Valid() && Extends(old(file.cpool.Snapshot()), file.cpool.Snapshot())
    ensures |indexes| == |types|
    ensures forall k :: 0 <= k < |types| ==> TypeName(file.cpool.Snapshot(), indexes[k], ns, types[k])
  {
    indexes := [];
    var i := 0;
    while i < |types|
      invariant 0 <= i <= |types| && |indexes| == i
      invariant file.Valid() && Extends(old(file.cpool.Snapshot()), file.cpool.Snapshot())
      invariant forall k :: 0 <= k < i ==> TypeName(file.cpool.Snapshot(), indexes[k], ns, types[k])
    {
      ghost var p := file.cpool.Snapshot();
      var index := TypeNameOf(file, ns, types[i]);
      forall k | 0 <= k < i
        ensures TypeName(file.cpool.Snapshot(), indexes[k], ns, types[k])
      {
        ExtendsKeepsTypeName(p, file.cpool.Snapshot(), indexes[k], ns, types[k]);
      }
      indexes := indexes + [index];
      i := i + 1;
    }
  }

  /** The code of `convertFunction`: the callbacks run from the start state and their
      instructions reach the builder in order. */
  method GenerateCode(f: Func, sig: Signature, builder: MethodBuilder, tables: Tables, maker: LabelMaker)
    returns (r: Outcome, ghost gen: Step)
    requires builder.Valid()
    modifies builder, builder.out, builder.cpool, tables, maker
    ensures builder.Valid()
    ensures gen == GenFunction(Start(old(maker.State()), old(tables.GlobalTable()), old(tables.MethodTable())), f, sig)
    ensures var a := EncodeAll(old(builder.Snapshot()), gen.st.code);
      && (a.Err? ==> r == Fail(a.error))
      && (a.Ok? ==> r == gen.r && builder.Snapshot() == a.value)
    ensures maker.State() == gen.st.counters && tables.GlobalTable() == gen.st.globals
    ensures tables.MethodTable() == gen.st.methods
  {
    var conv := new Converter(tables, maker);
    var g := conv.ConvertBody(f, sig);
    gen := Step(conv.Snapshot(), g);
    r := builder.EmitAll(conv.code);
    if r.Pass? {
      r := g;
    }
  }

  /** The `method_info` of `convertFunction`: the global namespace, the function's name,
      its result type and its parameter types are interned in that order, then the record
      is added. */
  method AddMethodInfo(file: AbcBuilder, name: string, sig: Signature) returns (index: nat)
    requires file.Valid()
    modifies file.cpool, file.abc
    ensures file.Valid() && Extends(old(file.cpool.Snapshot()), file.cpool.Snapshot())
    ensures index == |old(file.abc.methods)|
    ensures |file.abc.methods| == index + 1 && file.abc.methods[..index] == old(file.abc.methods)
    ensures exists ns :: NamesSignature(file.cpool.Snapshot(), file.abc.methods[index], name, sig, ns)
    ensures file.abc.methodBodies == old(file.abc.methodBodies)
  {
    var globalns := GlobalNs(file);
    ghost var p2 := file.cpool.Snapshot();
    InternStringFacts(p2, name);
    var nameIndex := file.String(Str(name));
    ghost var p3 := file.cpool.Snapshot();
    var ret := TypeNameOf(file, globalns, sig.result);
    ghost var p4 := file.cpool.Snapshot();
    var params := TypeNames(file, globalns, sig.args);
    ghost var p5 := file.cpool.Snapshot();
    ExtendsKeepsNamespace(p2, p3, globalns);
    ExtendsKeepsNamespace(p3, p4, globalns);
    ExtendsKeepsNamespace(p4, p5, globalns);
    ExtendsKeepsString(p3, p4, nameIndex, name);
    ExtendsKeepsString(p4, p5, nameIndex, name);
    ExtendsKeepsTypeName(p4, p5, ret, globalns, sig.result);
    index := file.Method(MethodFields(Some(ret), Some(params), Some(nameIndex), None, None, None));
    assert file.abc.methods[index] == Method(ret, params, nameIndex, 0, [], []);
    assert NamesSignature(p5, file.abc.methods[index], name, sig, globalns);
  }

  /** The records `convertFunction` adds for a function compiled to c: the signature is
      appended to the method table and named in the pool, and the body refers to it. */
  ghost predicate Recorded(file: AbcBuilder, methods0: seq<Method>, bodies0: seq<MethodBody>, name: string, c: Compiled)
    reads file, file.abc, file.cpool
  {
    && |file.abc.methods| == |methods0| + 1
    && file.abc.methods[..|methods0|] == methods0
    && (exists ns :: NamesSignature(file.cpool.Snapshot(), file.abc.methods[|methods0|], name, c.sig, ns))
    && file.abc.methodBodies == bodies0 +
         [NewMethodBody(BodyFields(Some(|methods0|), None, Some(|c.sig.args| + |c.sig.vars| + 1),
                                   None, None, Some(c.code), None, None))]
  }

  /** The outcome of the callbacks decides the compilation once the builder holds their
      code. */
  lemma CompileAfterGen(f: Func, s: St, p: Pool, sig: Signature, gen: Step)
    requires Sentinels(p) && FunctionSignature(f) == Ok(sig) && gen == GenFunction(s, f, sig)
    ensures CompileFunction(f, s, p) == Compile(sig, gen, p)
  {
  }

  /** `convertFunction(func, file)`: compile the function into a fresh method builder,
      then add its `method_info` and its `method_body_info` to the file; c is what the
      function compiles to. */
  method ConvertFunction(f: Func, file: AbcBuilder, tables: Tables, maker: LabelMaker)
    returns (r: Outcome, ghost c: Result<Compiled>)
    requires file.Valid()
    modifies file.cpool, file.abc, tables, maker
    ensures file.Valid()
    ensures c == CompileFunction(f, Start(old(maker.State()), old(tables.GlobalTable()), old(tables.MethodTable())),
                                 old(file.cpool.Snapshot()))
    ensures r == Status(c)
    ensures c.Ok? ==>
      && Extends(old(file.cpool.Snapshot()), file.cpool.Snapshot())
      && maker.State() == c.value.after.counters
      && tables.GlobalTable() == c.value.after.globals
      && tables.MethodTable() == c.value.after.methods
      && Recorded(file, old(file.abc.methods), old(file.abc.methodBodies), f.name, c.value)
  {
    ghost var p0 := file.cpool.Snapshot();
    ghost var s0 := Start(maker.State(), tables.GlobalTable(), tables.MethodTable());
    var sig := FunctionSignature(f);
    if sig.Err? {
      c := Err(sig.error);
      return Fail(sig.error), c;
    }
    var builder := file.NewMethodBuilder();
    ghost var gen;
    r, gen := GenerateCode(f, sig.value, builder, tables, maker);
    CompileAfterGen(f, s0, p0, sig.value, gen);
    c := Compile(sig.value, gen, p0);
    if r.Fail? {
      return;
    }
    EmitAllKeeps(Asm([], [], map[], p0), gen.st.code);
    ghost var a := builder.Snapshot();
    assert c == Finish(sig.value, gen.st, a);
    r := Record(f.name, sig.value, gen.st, file, builder);
    if r.Pass? {
      ExtendsTransitive(p0, a.pool, file.cpool.Snapshot());
    }
  }

  /** The second half of `convertFunction`, once the code is in the builder. */
  method Record(name: string, sig: Signature, ghost after: St, file: AbcBuilder, builder: MethodBuilder)
    returns (r: Outcome)
    requires file.Valid() && builder.Valid() && builder.cpool == file.cpool
    modifies file.cpool, file.abc, builder, builder.out
    ensures file.Valid()
    ensures var c := Finish(sig, after, old(builder.Snapshot()));
      && r == Status(c)
      && (c.Ok? ==>
           && Extends(old(file.cpool.Snapshot()), file.cpool.Snapshot())
           && Recorded(file, old(file.abc.methods), old(file.abc.methodBodies), name, c.value))
  {
    ghost var a := builder.Snapshot();
    var index := AddMethodInfo(file, name, sig);
    assert builder.out.stream == a.stream && builder.fixups == a.fixups && builder.addresses == a.addresses;
    var code := builder.ToBytes();
    if code.Err? {
      return Fail(code.error);
    }
    var localCount := |sig.args| + |sig.vars| + 1;
    var _ := file.MethodBody(BodyFields(Some(index), None, Some(localCount), None, None, Some(code.value), None, None));
    r := Pass;
  }
}
