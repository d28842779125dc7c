/** The module-level state of index.js that every function conversion shares
    (index.js:84-136): the AVM type names of binaryen types, the slot table of globals
    and the method table with its name index. */
module Registry {
  import opened Bytes
  import opened WasmIr

  /** `avmType(t)`: the ActionScript type a binaryen value type becomes; i64 has none. */
  function AvmType(t: ValType): (r: Result<string>)
    ensures r.Ok? <==> !t.I64?
    ensures r.Err? ==> r.error == UnexpectedType
    ensures r.Ok? ==> (r.value == "void" <==> t.NoneType?)
    ensures r.Ok? ==> (r.value == "int" <==> t.I32?)
    ensures r.Ok? ==> (r.value == "Number" <==> t.F32? || t.F64?)
  {
    match t
    case NoneType => Ok("void")
    case I32 => Ok("int")
    case F32 => Ok("Number")
    case F64 => Ok("Number")
    case I64 => Err(UnexpectedType)
  }

  // ---------------------------------------------------------------- slots

  datatype Slot = Slot(name: string, typeName: string)

  /** The three slots every module starts with. */
  const ReservedSlots: seq<Slot> := [Slot("__wasm2swf_reserved", "undefined"),
                                     Slot("__wasm2swf_memory", "ByteArray"),
                                     Slot("__wasm2swf_table", "Array")]
  const MemorySlot: nat := 1
  const TableSlot: nat := 2

  /** `slots` and `globalSlots`. */
  datatype Globals = Globals(slots: seq<Slot>, indexes: map<string, nat>)

  const InitialGlobals: Globals := Globals(ReservedSlots, map[])

  /** The reserved slots come first, and every global's index holds a slot of its name. */
  predicate GlobalsValid(g: Globals)
  {
    && |g.slots| >= 3 && g.slots[..3] == ReservedSlots
    && forall n :: n in g.indexes ==> 3 <= g.indexes[n] < |g.slots| && g.slots[g.indexes[n]].name == n
  }

  /** `slotForGlobal(name, type)`: the slot of a known global; otherwise a new slot at the
      end, whose type `avmType` must supply. */
  function SlotFor(g: Globals, name: string, t: ValType): (r: Result<(nat, Globals)>)
  {
    if name in g.indexes then Ok((g.indexes[name], g))
    else
      var typeName :- AvmType(t);
      Ok((|g.slots|, Globals(g.slots + [Slot(name, typeName)], g.indexes[name := |g.slots|])))
  }

  lemma InitialGlobalsValid()
    ensures GlobalsValid(InitialGlobals)
  {
  }

  /** A known global keeps its index and changes nothing; a new one is appended once, after
      the reserved slots, and fails only for a type `avmType` rejects. */
  lemma SlotForFacts(g: Globals, name: string, t: ValType)
    requires GlobalsValid(g)
    ensures name in g.indexes ==> SlotFor(g, name, t) == Ok((g.indexes[name], g))
    ensures name !in g.indexes ==> (SlotFor(g, name, t).Ok? <==> AvmType(t).Ok?)
    ensures SlotFor(g, name, t).Err? ==> SlotFor(g, name, t).error == UnexpectedType
    ensures SlotFor(g, name, t).Ok? ==>
      var (i, h) := SlotFor(g, name, t).value;
      && GlobalsValid(h) && 3 <= i < |h.slots| && h.slots[i].name == name
      && g.slots <= h.slots && |h.slots| <= |g.slots| + 1
      && h.indexes.Keys == g.indexes.Keys + {name}
      && forall n :: n in g.indexes ==> h.indexes[n] == g.indexes[n]
  {
  }

  /** Asking again for the same global, with any type, gives the same slot and adds none. */
  lemma SlotForStable(g: Globals, name: string, t1: ValType, t2: ValType)
    requires SlotFor(g, name, t1).Ok?
    ensures var (i, h) := SlotFor(g, name, t1).value;
      SlotFor(h, name, t2) == Ok((i, h))
  {
  }

  // ---------------------------------------------------------------- methods

  const ReservedMethod: string := "__wasm2swf_reserved"

  /** The runtime helpers registered before any wasm function (index.js:136-147). */
  const Helpers: seq<string> := ["__wasm2swf_memory_size", "__wasm2swf_memory_grow",
                                 "__wasm2swf_clz32",
                                 "__wasm2swf_abs", "__wasm2swf_ceil", "__wasm2swf_floor",
                                 "__wasm2swf_sqrt",
                                 "__wasm2swf_min", "__wasm2swf_max"]

  /** `methods` and `methodIndexes`. */
  datatype Methods = Methods(names: seq<string>, indexes: map<string, nat>)

  /** `addMethod(name)`: append the name and point its index at it. The registration loop
      of `convertModule` does the same for each wasm function. */
  function Added(m: Methods, name: string): Methods
  {
    Methods(m.names + [name], m.indexes[name := |m.names|])
  }

  function AddedAll(m: Methods, names: seq<string>): Methods
    decreases |names|
  {
    if names == [] then m else Added(AddedAll(m, names[..|names| - 1]), names[|names| - 1])
  }

  /** The tables once index.js has been loaded. */
  function InitialMethods(): Methods
  {
    AddedAll(Methods([ReservedMethod], map[]), Helpers)
  }

  /** `methodIndex(name)`: the index if it is truthy, that is, present and not 0. */
  function LookupMethod(m: Methods, name: string): (r: Result<nat>)
    ensures r.Ok? <==> name in m.indexes && m.indexes[name] != 0
    ensures r.Ok? ==> r.value == m.indexes[name]
    ensures r.Err? ==> r.error == UnknownFunction(name)
  {
    if name in m.indexes && m.indexes[name] != 0 then Ok(m.indexes[name]) else Err(UnknownFunction(name))
  }

  /** Slot 0 is the reserved method, and every index points at its own name past it. */
  predicate MethodsValid(m: Methods)
  {
    && |m.names| >= 1 && m.names[0] == ReservedMethod
    && forall n :: n in m.indexes ==> 1 <= m.indexes[n] < |m.names| && m.names[m.indexes[n]] == n
  }

  /** No later position of `names` holds the name at i. */
  predicate LastOccurrence(names: seq<string>, i: int)
    requires 0 <= i < |names|
  {
    forall j :: i < j < |names| ==> names[j] != names[i]
  }

  /** Registering names appends them and keeps the tables consistent. */
  lemma {:induction false} AddedAllShape(m: Methods, names: seq<string>)
    requires MethodsValid(m)
    ensures var a := AddedAll(m, names);
      && MethodsValid(a)
      && a.names == m.names + names
      && a.indexes.Keys == m.indexes.Keys + set n | n in names
    decreases |names|
  {
    if names != [] {
      var init := names[..|names| - 1];
      AddedAllShape(m, init);
      assert names == init + [names[|names| - 1]];
    }
  }

  /** A name registered for the last time at position i of `names` is found there. */
  lemma {:induction false} AddedAllLast(m: Methods, names: seq<string>, i: int)
    requires 0 <= i < |names| && LastOccurrence(names, i)
    ensures var a := AddedAll(m, names);
      names[i] in a.indexes && a.indexes[names[i]] == |m.names| + i
    decreases |names|
  {
    var init := names[..|names| - 1];
    AddedAllNames(m, init);
    if i < |names| - 1 {
      assert init[i] == names[i];
      AddedAllLast(m, init, i);
    }
  }

  /** The method list grows by exactly the registered names. */
  lemma {:induction false} AddedAllNames(m: Methods, names: seq<string>)
    ensures AddedAll(m, names).names == m.names + names
    decreases |names|
  {
    if names != [] {
      var init := names[..|names| - 1];
      AddedAllNames(m, init);
      assert names == init + [names[|names| - 1]];
    }
  }

  /** A name that is not registered again keeps its index. */
  lemma {:induction false} AddedAllKeeps(m: Methods, names: seq<string>, n: string)
    requires n in m.indexes && n !in names
    ensures var a := AddedAll(m, names);
      n in a.indexes && a.indexes[n] == m.indexes[n]
    decreases |names|
  {
    if names != [] {
      var init := names[..|names| - 1];
      assert n !in init by {
        assert forall k :: 0 <= k < |init| ==> init[k] == names[k];
      }
      AddedAllKeeps(m, init, n);
    }
  }

  /** A registered name is always found: `methodIndex` rejects exactly the unregistered
      names, because no registered name sits at index 0. */
  lemma LookupKnown(m: Methods, name: string)
    requires MethodsValid(m)
    ensures LookupMethod(m, name).Ok? <==> name in m.indexes
  {
  }

  /** `addMethod` numbers the helpers from 1, in the order they are registered. */
  lemma HelperIndexes()
    ensures MethodsValid(InitialMethods())
    ensures InitialMethods().names == [ReservedMethod] + Helpers
    ensures forall i :: 0 <= i < |Helpers| ==> LookupMethod(InitialMethods(), Helpers[i]) == Ok(i + 1)
  {
    var m0 := Methods([ReservedMethod], map[]);
    AddedAllShape(m0, Helpers);
    HelpersDistinct();
    forall i | 0 <= i < |Helpers|
      ensures LookupMethod(InitialMethods(), Helpers[i]) == Ok(i + 1)
    {
      AddedAllLast(m0, Helpers, i);
    }
  }

  lemma HelpersDistinct()
    ensures forall i, j :: 0 <= i < j < |Helpers| ==> Helpers[i] != Helpers[j]
  {
    forall i, j | 0 <= i < j < |Helpers|
      ensures Helpers[i] != Helpers[j]
    {
      var a, b := Helpers[i], Helpers[j];
      assert |a| != |b| || a[11] != b[11] || a[12] != b[12] || a[18] != b[18];
    }
  }

  /** The functions of a module, registered after the helpers, get 10, 11, ... in order,
      and the helpers keep 1 to 9 unless a function has a helper's name. */
  lemma ModuleFunctionIndexes(fs: seq<string>)
    requires forall i, j :: 0 <= i < j < |fs| ==> fs[i] != fs[j]
    ensures var m := AddedAll(InitialMethods(), fs);
      && (forall i :: 0 <= i < |fs| ==> LookupMethod(m, fs[i]) == Ok(|Helpers| + 1 + i))
      && (forall i :: 0 <= i < |Helpers| && Helpers[i] !in fs ==> LookupMethod(m, Helpers[i]) == Ok(i + 1))
  {
    HelperIndexes();
    var m0 := InitialMethods();
    forall i | 0 <= i < |fs|
      ensures LookupMethod(AddedAll(m0, fs), fs[i]) == Ok(|Helpers| + 1 + i)
    {
      AddedAllLast(m0, fs, i);
    }
    forall i | 0 <= i < |Helpers| && Helpers[i] !in fs
      ensures LookupMethod(AddedAll(m0, fs), Helpers[i]) == Ok(i + 1)
    {
      AddedAllKeeps(m0, fs, Helpers[i]);
    }
  }

  // ---------------------------------------------------------------- the shared state

  /** The four tables, updated in place as functions are converted. */
  class Tables {
    var slots: seq<Slot>
    var globalSlots: map<string, nat>
    var methods: seq<string>
    var methodIndexes: map<string, nat>

    function GlobalTable(): Globals
      reads this
    {
      Globals(slots, globalSlots)
    }

    function MethodTable(): Methods
      reads this
    {
      Methods(methods, methodIndexes)
    }

    /** The tables after index.js is loaded: the reserved slots, the reserved method and
        the nine helpers. */
    constructor()
      ensures GlobalTable() == InitialGlobals
      ensures MethodTable() == InitialMethods()
    {
      slots, globalSlots := ReservedSlots, map[];
      methods, methodIndexes := [ReservedMethod], map[];
      new;
      AddMethods(Helpers);
    }

    method SlotForGlobal(name: string, t: ValType) returns (r: Result<nat>)
      modifies this
      ensures var e := SlotFor(old(GlobalTable()), name, t);
        && (e.Ok? ==> r == Ok(e.value.0) && GlobalTable() == e.value.1)
        && (e.Err? ==> r == Err(e.error) && GlobalTable() == old(GlobalTable()))
      ensures MethodTable() == old(MethodTable())
    {
      if name !in globalSlots {
        var typeName := AvmType(t);
        if typeName.Err? {
          return Err(typeName.error);
        }
        slots := slots + [Slot(name, typeName.value)];
        globalSlots := globalSlots[name := |slots| - 1];
      }
      r := Ok(globalSlots[name]);
    }

    method AddMethod(name: string)
      modifies this
      ensures MethodTable() == Added(old(MethodTable()), name)
      ensures GlobalTable() == old(GlobalTable())
    {
      methods := methods + [name];
      methodIndexes := methodIndexes[name := |methods| - 1];
    }

    /** `addMethod` for each name in turn; also the first loop of `convertModule`
        (index.js:1176-1181), which registers every wasm function. */
    method AddMethods(names: seq<string>)
      modifies this
      ensures MethodTable() == AddedAll(old(MethodTable()), names)
      ensures GlobalTable() == old(GlobalTable())
    {
      var i := 0;
      while i < |names|
        invariant 0 <= i <= |names|
        invariant MethodTable() == AddedAll(old(MethodTable()), names[..i])
        invariant GlobalTable() == old(GlobalTable())
      {
        assert names[..i + 1][..i] == names[..i];
        AddMethod(names[i]);
        i := i + 1;
      }
      assert names[..i] == names;
    }

    method MethodIndex(name: string) returns (r: Result<nat>)
      ensures r == LookupMethod(MethodTable(), name)
    {
      if name in methodIndexes && methodIndexes[name] != 0 {
        r := Ok(methodIndexes[name]);
      } else {
        r := Err(UnknownFunction(name));
      }
    }
  }
}
