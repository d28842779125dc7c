# wasm2swf in Dafny

wasm2swf compiles a WebAssembly module into an ActionScript 3 class and wraps it in a
Flash (SWF) file. Its core is three writers and a code generator:

- `abc.js`: the ABC (AVM2 bytecode) writer. `CPool` interns integers, unsigned
  integers, doubles, strings, namespaces, namespace sets and multinames into seven
  pools, each with a reserved entry 0. `Builder` writes the primitive encodings (`u8`,
  `u16`, `s24`, and the variable-length `u30`, `u32`, `s32` of section 4.1 of the AVM2
  Overview). `ABCBuilder` serialises the file: header, constant pool, method
  signatures, metadata and method bodies. `MethodBuilder` is the per-function
  assembler: opcode emitters, labels, and 3-byte branch displacements that are either
  computed at once or recorded as fixups and patched by `applyFixups`.
- `index.js`: `convertFunction`, which walks a binaryen expression tree with one
  `visit*` rule per node kind and emits AVM2 code. It keeps a stack of block and loop
  labels, fuses comparisons into compare-and-branch opcodes, chooses constant-push
  forms by range, folds memory offsets, turns additions of 1 and -1 into
  increments, shifts local indices by one for `this`, and allocates global slots on
  first use. Around it sit the helper and function registration of `convertModule`.
- `utils.js`: a byte `Builder` and a `Bitstream` that packs bits most significant
  first.
- `swf.js`: `SWFBuilder` and `SWFFileBuilder`, which write little-endian integers,
  null-terminated strings, the RECT record, tag records with short and long headers,
  the file header, and the two back-patched header fields (file length and frame
  count).

The model keeps the source's form. Objects whose fields the source updates in place
(`CPool`, the builders, `MethodBuilder`, the converter with its label stack,
`Bitstream`, `SWFFileBuilder`) are Dafny classes whose methods are proved against
specification functions on their state. JavaScript subclasses hold their base object
as a `const` field. The pure parts (the varint encodings, the pool interning rules,
the section writers, the code generator's node rules, the rectangle and tag formats)
are functions, and the lemmas beside them state what the bytes mean: they read back,
they round-trip through a reader, or they leave earlier state unchanged.

Module layout:

| file | module | models |
|---|---|---|
| bytes.dfy | Bytes | bytes, 32-bit conversions, little-endian values, UTF-8, results and errors |
| abc_stream.dfy | AbcStream | `Builder` of abc.js and the variable-length integers |
| cpool.dfy | ConstantPool | the pool entities, their `equals`, and `CPool` |
| abc_writer.dfy | AbcWriter | `Method`, `MethodBody`, `ABCFile` and `ABCBuilder` |
| assembler.dfy | Assembler | `Label`, the instruction set and `MethodBuilder` |
| wasm_ir.dfy | WasmIr | the fields of binaryen's expression and function records that the visitors read |
| labels.dfy, registry.dfy | Labels, Registry | label naming, global slots and method indices |
| codegen.dfy, codegen_facts.dfy | CodeGen, CodeGenFacts | the `visit*` rules as functions, and what they emit |
| converter.dfy | Translator | the converter object whose methods mirror the `visit*` callbacks |
| driver.dfy, scenarios.dfy | Driver, Scenarios | `convertFunction` from signature to method body record, and whole-function examples |
| stack_machine.dfy | StackMachine | a small stack reading of emitted code, used to state what `select`, `if` and `loop` do |
| swf_utils.dfy | SwfUtils | `Builder` and `Bitstream` of utils.js |
| swf.dfy | Swf | `SWFBuilder` and `SWFFileBuilder` |

## Model

| member | source | states |
|---|---|---|
| AbcStream.U30Bytes | abc.js:380-385 | `u30` fails with a RangeError exactly when v >= 2^30; otherwise it writes the same bytes as `u32` |
| AbcStream.D64Bytes | abc.js:415-420 | a double is written as exactly 8 bytes |
| AbcStream.GroupsLength | abc.js:404-412 | the loop writes one byte when bits <= 0 and ceil(bits / 7) bytes otherwise |
| AbcStream.GroupsDigit | abc.js:404-412 | byte i of the loop's output carries base-128 digit i of the value in its low 7 bits |
| AbcStream.GroupsFlags | abc.js:404-412 | every byte the loop writes has bit 7 set exactly when the loop started with bits > 0 |
| AbcStream.GroupsDecode | abc.js:404-412 | the low 7 bits of the output, read little-endian, give the value modulo 128^(byte count) |
| AbcStream.U32Length | abc.js:401-413 | `u32` writes 1 byte for 0 and ceil(bit length / 7) bytes otherwise, so between 1 and 5 |
| AbcStream.U32Reassembles | abc.js:401-413 | the 7-bit groups `u32` writes reassemble `val >>> 0` exactly |
| AbcStream.U32FlagsEveryByte | abc.js:406-408 | `u32(0)` writes [0], and for every other value every byte, the last included, has the continuation bit set |
| AbcStream.S32Length | abc.js:387-399 | `s32` writes ceil((bit length of abs(val) + 1) / 7) bytes, between 1 and 5 |
| AbcStream.S32Digits | abc.js:387-399 | byte i of `s32(v)` carries `(v >> 7i) & 127` in its low 7 bits |
| AbcStream.S32SignExtends | abc.js:387-399 | the groups, read as one two's complement number of 7 bits per byte, give back the 32-bit signed value of `val` (bitwise-or with 0): the group count leaves room for the sign bit |
| AbcStream.S32Room | abc.js:387-399 | the groups hold the 32-bit signed value of `val` (bitwise-or with 0) modulo 2^(7 * byte count), and abs(val) is below half that range |
| AbcStream.S32FlagsEveryByte | abc.js:392-394 | every byte `s32` writes, the last included and even for 0, has the continuation bit set |
| AbcStream.ReadVarint | abc.js:401-413 | a variable-length reader as section 4.1 of the AVM2 overview describes it never reads more than its input or its byte limit |
| AbcStream.ReadWellFormed | abc.js:401-413 | a well-formed variable-length encoding is read back exactly, whatever bytes follow it |
| AbcStream.ReadOverruns | abc.js:401-413 | an encoding shorter than the limit whose every byte has the continuation bit set makes a reader run out of input or consume bytes that follow it |
| AbcStream.ClearLast | abc.js:406-408 | the intended encoding keeps the number of bytes and clears bit 7 only on the last byte |
| AbcStream.Decode7ClearLast | abc.js:406-408 | clearing the last continuation bit leaves the encoded value unchanged |
| AbcStream.U32IntendedRoundTrip | abc.js:401-413 | with the last continuation bit cleared, every `u32` encoding is well formed and reads back as `val >>> 0`, whatever follows |
| AbcStream.S32IntendedRoundTrip | abc.js:387-399 | with the last continuation bit cleared, every `s32` encoding is well formed, and reading and sign-extending it gives back the 32-bit signed value of `val` (bitwise-or with 0) |
| AbcStream.U32AsWrittenMisread | abc.js:401-413 | as written, `u32(v)` for 0 < v < 2^28 is not well formed, and a reader does not stop at its end |
| AbcStream.Builder.constructor | abc.js:353-355 | a new builder has an empty stream |
| AbcStream.Builder.ToBytes | abc.js:361-363 | `toBytes` returns the stream as written |
| AbcStream.Builder.U8 | abc.js:365-367 | `u8` appends `val & 255` and nothing else |
| AbcStream.Builder.U16 | abc.js:369-372 | `u16` appends the two little-endian bytes of the low 16 bits |
| AbcStream.Builder.S24 | abc.js:374-378 | `s24` appends the three little-endian bytes of the low 24 bits (two's complement for negatives) |
| AbcStream.Builder.U32 | abc.js:401-413 | `u32` appends exactly the 7-bit groups of the loop (proved against the group function with loop invariants) |
| AbcStream.Builder.S32 | abc.js:387-399 | `s32` appends exactly the 7-bit groups of the arithmetically shifted value |
| AbcStream.Builder.U30 | abc.js:380-385 | `u30` fails with a RangeError and writes nothing for v >= 2^30, and otherwise appends what `u32` writes |
| AbcStream.Builder.D64 | abc.js:415-420 | `d64` appends the 8 bytes of the double |
| ConstantPool.NamespaceEqualsIsIdentity | abc.js:105-107 | `NamespaceBase.equals` (same kind `===` and same name `===`) holds exactly when the two namespaces are equal values |
| ConstantPool.NamespaceSetEquals | abc.js:130-144 | `NamespaceSet.equals` is true exactly when the two sets hold the same indices in the same order (proved with the loop's invariant) |
| ConstantPool.Kind | abc.js:146-269 | each multiname constructor passes one of the ten multiname kind constants 0x07, 0x0D, 0x0F, 0x10, 0x11, 0x12, 0x09, 0x0E, 0x1B, 0x1C |
| ConstantPool.KindIdentifiesClass | abc.js:146-269 | two multinames have the same kind exactly when the same class built them, so the kind test of `MultinameBase.equals` separates the ten classes |
| ConstantPool.MultinameEqualsIsIdentity | abc.js:151-269 | with each subclass's `equals` added to the kind test, two multinames are `equals` exactly when they are equal values |
| ConstantPool.LateNamesAllEqual | abc.js:151-153 | every RTQNameL equals every other RTQNameL, likewise RTQNameLA, and the two kinds never equal each other |
| ConstantPool.IndexOf | abc.js:28 | `indexOf` returns -1 exactly when the value is absent, and otherwise the first position holding it |
| ConstantPool.InternFacts | abc.js:88-94 | interning returns a position that holds the value; a present value leaves the table unchanged at its first position, an absent one is appended at the old length |
| ConstantPool.InternIdempotent | abc.js:88-94 | interning the same value twice gives the same index and the same table as interning it once |
| ConstantPool.DoubleIndexOf | abc.js:52 | `doubles.indexOf` finds the first entry `===` to the value, or returns -1 when none is |
| ConstantPool.InitialSentinels | abc.js:16-24 | the new pool holds the seven sentinels 0, 0, NaN, '', namespace 0, namespace set [0] and QName 0 at index 0 |
| ConstantPool.InternIntegerFacts | abc.js:26-34 | `integer` stores the 32-bit signed value of `val` (bitwise-or with 0), returns its index, reuses an existing entry, appends otherwise and keeps every earlier entry and the sentinels |
| ConstantPool.InternUintegerFacts | abc.js:36-44 | `uinteger` stores `val >>> 0`, returns its index, reuses an existing entry, appends otherwise and keeps every earlier entry and the sentinels |
| ConstantPool.InternDoubleFacts | abc.js:46-57 | `double` maps NaN to 0 without storing it, and any other number to an index of at least 1 holding an entry `===` to it |
| ConstantPool.InternZeroes | abc.js:46-57 | +0 and -0 share one entry, because `indexOf` finds either for the other |
| ConstantPool.InternStringFacts | abc.js:59-70 | `string` maps '' to 0 without storing it, reuses an existing entry and appends any other new string at the old length |
| ConstantPool.InternNamespaceFacts | abc.js:72-78 | `namespace` returns the first index whose entry `equals` the namespace, appending it when none does |
| ConstantPool.InternNamespaceSetFacts | abc.js:80-86 | `namespaceSet` returns 0 for the sentinel's set [0]; any other set reaches the undeclared name `multiname` and fails with a ReferenceError |
| ConstantPool.InternNamespaceSetIntendedFacts | abc.js:80-86 | as intended, `namespaceSet` returns an index holding the set, reuses an equal set and appends a new one, keeps the sentinel set and every earlier entry, and gives the same index and pool as the code wherever the code succeeds |
| ConstantPool.InternMultinameFacts | abc.js:88-94 | `multiname` returns the first index whose entry `equals` the multiname, appending it when none does |
| ConstantPool.CPool.constructor | abc.js:16-24 | a new pool holds exactly the seven sentinel tables |
| ConstantPool.CPool.Integer | abc.js:26-34 | the method updates the tables as integer interning specifies and keeps the pool invariant |
| ConstantPool.CPool.Uinteger | abc.js:36-44 | the method updates the tables as unsigned-integer interning specifies and keeps the pool invariant |
| ConstantPool.CPool.Double | abc.js:46-57 | the method updates the tables as double interning specifies and keeps the pool invariant |
| ConstantPool.CPool.String | abc.js:59-70 | the method updates the tables as string interning specifies and keeps the pool invariant |
| ConstantPool.CPool.Namespace | abc.js:72-78 | the method updates the tables as namespace interning specifies, searching with `IndexOf`, the model of `findIndex` |
| ConstantPool.CPool.NamespaceSet | abc.js:80-86 | the method returns the interning function's index for the set [0], and the ReferenceError for any other set |
| ConstantPool.CPool.Multiname | abc.js:88-94 | the method updates the tables as multiname interning specifies, searching with `IndexOf`, the model of `findIndex` |
| AbcWriter.OrNumber | abc.js:273-276 | the logical-or default (`info.x` or d) on a number field keeps any nonzero value and falls back to the default for an omitted field or 0 |
| AbcWriter.OrArray | abc.js:274-278 | the logical-or default (`info.x` or d) on an array field keeps any given array, the empty one included, and uses the default only when the field is omitted |
| AbcWriter.MethodFieldsAsGiven | abc.js:272-279 | a new `Method` keeps every given return type, name, flags and parameter list, and an omitted return type or parameter list becomes 0 or [] |
| AbcWriter.MaxStackDefault | abc.js:306-315 | a body's `max_stack` is 4096 when omitted and also when 0 is passed; any other value and the given code are kept |
| AbcWriter.Rest | abc.js:557 | `slice(1)` drops the first element and gives [] for an empty table |
| AbcWriter.KindThenOperands | abc.js:613-614 | `multiname_info` writes the kind byte, then the operands of that kind, and throws when the operands throw |
| AbcWriter.EachAppend | abc.js:555-590 | running a writing loop over xs then ys writes what the loop over their concatenation writes |
| AbcWriter.EachLength | abc.js:555-590 | when no element throws and each writes k bytes, a loop writes k bytes per element |
| AbcWriter.EachFails | abc.js:555-590 | a writing loop throws exactly when some element throws, and then throws the first such element's exception |
| AbcWriter.U30Value | abc.js:600-603 | `u30` of a field holding a non-numeric string or undefined writes the encoding of 0, and of an integer what `u30` writes |
| AbcWriter.U30Small | abc.js:380-413 | a `u30` below 128 is one byte: 0 as itself, any other value with bit 7 set |
| AbcWriter.SentinelOnly | abc.js:555-590 | a table holding only its sentinel writes only its count 1, as the byte 129 |
| AbcWriter.CpoolIgnoresSentinels | abc.js:555-590 | `cpool_info` never writes entry 0 of a table: pools that differ only in their sentinels are written alike |
| AbcWriter.InitialPoolBytes | abc.js:555-590 | the pool of a new `CPool` is written as seven counts of 1 and nothing else |
| AbcWriter.EmptyFileBytes | abc.js:520-553 | a new file is written as versions 19 and 46, the sentinel-only pool and five empty tables |
| AbcWriter.FileHeader | abc.js:520-522 | every written file starts with the minor and then the major version as little-endian `u16` |
| AbcWriter.NsSetTableOk | abc.js:582-585 | the namespace-set table is written only while it holds just the sentinel; any further entry throws a TypeError |
| AbcWriter.NsSetGap | abc.js:606-611 | `ns_set_info` as written throws for every set, while the intended one writes every set whose count and indices fit in `u30` |
| AbcWriter.U32Injective | abc.js:401-413 | `u32` writes different bytes for different 32-bit values |
| AbcWriter.U32Of129 | abc.js:401-413 | `u32(129)` writes [129, 129] |
| AbcWriter.PairAmbiguous | abc.js:401-413 | two `u30` fields in a row do not show where the first ends: (1, 129) and (129, 1) are written alike |
| AbcWriter.QNameDropsNamespace | abc.js:616-620 | the QName branch writes the kind where the namespace belongs, so QNames differing only in namespace are written alike; QName(1, 2) gives [7, 135, 130] |
| AbcWriter.QNameIntendedKeepsNamespace | abc.js:616-620 | with the namespace written in place of the kind, QNames with different namespace indices are written differently; QName(1, 2) gives [7, 129, 130] |
| AbcWriter.OptionsNeedFlag | abc.js:652-654 | the option list reaches `method_info`'s output only under HAS_OPTIONAL |
| AbcWriter.ParamNamesNeedFlag | abc.js:655-657 | the parameter names reach `method_info`'s output only under HAS_PARAM_NAMES |
| AbcWriter.MethodInfoOk | abc.js:642-658 | the signature part of `method_info` throws exactly when a count or index reaches 2^30, and otherwise ends with the flags byte and starts the record |
| AbcWriter.MethodBodyOk | abc.js:660-678 | `method_body_info` throws exactly when a frame field or the code length reaches 2^30, or the body has an exception or a trait |
| AbcWriter.MethodBodyCode | abc.js:665-676 | a written body ends with its code bytes copied verbatim, then the two zero counts of the empty exception and trait tables |
| AbcWriter.MissingThrows | abc.js:537-548 | a table whose entry writer the class lacks writes its count when empty, and throws a TypeError on its first entry |
| AbcWriter.MetadataOk | abc.js:698-709 | `metadata_info` throws exactly when the name, the count, or an item's key or value reaches 2^30 |
| AbcWriter.WritableFile | abc.js:520-553 | `abcFile` finishes only for a file with no class, no script, no namespace set beyond the sentinel and no body with an exception or trait |
| AbcWriter.StringAscii | abc.js:592-598 | `string_info` of a short ASCII text writes its length byte (with the continuation bit when nonzero), then the character codes |
| AbcWriter.AbcFile.constructor | abc.js:2-12 | a new file has versions 19 and 46, a fresh sentinel-only pool and empty tables |
| AbcWriter.AbcBuilder.constructor | abc.js:424-428 | a new builder has an empty stream, a new file, and its pool shortcut is that file's pool |
| AbcWriter.AbcBuilder.Integer | abc.js:441-443 | delegates to the pool's integer interning |
| AbcWriter.AbcBuilder.Uinteger | abc.js:445-447 | delegates to the pool's unsigned-integer interning |
| AbcWriter.AbcBuilder.Double | abc.js:449-451 | delegates to the pool's double interning |
| AbcWriter.AbcBuilder.String | abc.js:453-455 | interns `String(val)`, so undefined and numbers are stored as their text |
| AbcWriter.AbcBuilder.Namespace | abc.js:457-462 | interns the name as a string first, then the namespace holding that string's index |
| AbcWriter.AbcBuilder.NamespaceSet | abc.js:464-466 | returns what namespace-set interning returns: 0 for [0], the ReferenceError otherwise |
| AbcWriter.AbcBuilder.Multiname | abc.js:468-490 | each multiname helper interns a multiname of its class; the late-bound ones ignore their argument |
| AbcWriter.AbcBuilder.Method | abc.js:492-495 | pushes the new signature, returns its index, and changes no other table |
| AbcWriter.AbcBuilder.MethodBody | abc.js:497-500 | pushes the new body, returns its index, and changes no other table |
| AbcWriter.AbcBuilder.MetadataRecord | abc.js:502-508 | returns a record whose name is the interned string and whose items are the given ones, without adding it to the file |
| AbcWriter.AbcBuilder.U30 | abc.js:380-385 | appends the `u30` bytes or throws RangeError |
| AbcWriter.AbcBuilder.U30Pair | abc.js:706-709 | two `u30` calls, the second skipped when the first throws |
| AbcWriter.AbcBuilder.U8Each | abc.js:595-597 | one `u8` per byte appends the bytes unchanged |
| AbcWriter.AbcBuilder.ParamInfo | abc.js:692-696 | one `u30` per value, stopping at the first that throws |
| AbcWriter.AbcBuilder.IntegerTable | abc.js:556-559 | the count including the sentinel, then `s32` of every entry after it |
| AbcWriter.AbcBuilder.UintegerTable | abc.js:561-564 | the count including the sentinel, then `u32` of every entry after it |
| AbcWriter.AbcBuilder.DoubleTable | abc.js:566-569 | the count including the sentinel, then `d64` of every entry after it |
| AbcWriter.AbcBuilder.StringTable | abc.js:571-574 | the count including the sentinel, then `string_info` of every entry after it |
| AbcWriter.AbcBuilder.NamespaceTable | abc.js:576-579 | the count including the sentinel, then `namespace_info` of every entry after it |
| AbcWriter.AbcBuilder.NsSetTable | abc.js:581-584 | the count including the sentinel, then `ns_set_info` of every entry after it (which throws) |
| AbcWriter.AbcBuilder.MultinameTable | abc.js:586-589 | the count including the sentinel, then `multiname_info` of every entry after it |
| AbcWriter.AbcBuilder.CpoolInfo | abc.js:555-590 | writes the seven tables in order and throws the first exception any of them throws |
| AbcWriter.AbcBuilder.StringInfo | abc.js:592-598 | the UTF-8 byte count as `u30`, then the bytes |
| AbcWriter.AbcBuilder.NamespaceInfo | abc.js:600-603 | `u8(kind)`, then `u30(name)` |
| AbcWriter.AbcBuilder.NsSetInfo | abc.js:606-611 | on the `NamespaceSet` object it is handed, always throws the TypeError of iterating a non-iterable |
| AbcWriter.AbcBuilder.MultinameInfo | abc.js:613-640 | the kind byte, then the operands of that kind, as the switch lays them out |
| AbcWriter.AbcBuilder.OperandsInfo | abc.js:615-639 | the switch writes each kind's operands; its default branch cannot be reached |
| AbcWriter.AbcBuilder.OptionDetailInfo | abc.js:687-690 | `u30(val)`, then `u8(kind)` |
| AbcWriter.AbcBuilder.OptionInfo | abc.js:680-685 | the option count, then each option |
| AbcWriter.AbcBuilder.SignatureInfo | abc.js:644-651 | parameter count, return type, parameter types, name and flags byte |
| AbcWriter.AbcBuilder.MethodInfo | abc.js:642-658 | the signature, the options under HAS_OPTIONAL and the parameter names under HAS_PARAM_NAMES |
| AbcWriter.AbcBuilder.MethodBodyInfo | abc.js:660-678 | the frame fields, the code length and bytes, then the exception and trait tables |
| AbcWriter.AbcBuilder.UnwrittenTable | abc.js:539-548 | the count, then a call to a writer method the class does not define, which throws on the first entry |
| AbcWriter.AbcBuilder.ItemInfo | abc.js:706-709 | `u30(key)`, then `u30(value)` |
| AbcWriter.AbcBuilder.MetadataInfo | abc.js:698-704 | the name, the item count, then each item |
| AbcWriter.AbcBuilder.MethodTable | abc.js:525-528 | the method count, then `method_info` of each method |
| AbcWriter.AbcBuilder.MetadataTable | abc.js:530-533 | the metadata count, then `metadata_info` of each record |
| AbcWriter.AbcBuilder.BodyTable | abc.js:549-552 | the body count, then `method_body_info` of each body |
| AbcWriter.AbcBuilder.TablesInfo | abc.js:525-552 | the tables after the pool, in file order, stopping at the first exception |
| AbcWriter.AbcBuilder.AbcFileInfo | abc.js:520-553 | the versions as `u16`, the pool, then the tables, exactly as the file serialisation specifies |
| AbcWriter.AbcBuilder.ToBytes | abc.js:434-437 | serialises the file after what the stream already holds and returns the whole stream, or the exception the serialisation throws |
| AbcWriter.AbcBuilder.NewMethodBuilder | abc.js:430-432 | a fresh method builder with empty code and fixups that interns into this file's pool |
| Assembler.Patch3 | abc.js:767-769 | patching one fixup rewrites three bytes in place and keeps the stream's length |
| Assembler.PatchFrom | abc.js:761-772 | patching from the i-th fixup on keeps the stream's length when it succeeds |
| Assembler.PatchAll | abc.js:761-772 | `applyFixups` keeps the stream's length when it succeeds |
| Assembler.RelAddrFacts | abc.js:752-759 | `relativeAddress` appends 3 bytes: a placed label's displacement from the end of the field, or zeros plus one fixup at the field's end for a label not yet placed |
| Assembler.PlaceFacts | abc.js:1071-1075 | `label(L)` records the position of the 0x09 byte it then writes |
| Assembler.GetLocalBytes | abc.js:885-916 | `getlocal(i)` writes the one byte 0xd0 + i for i in 0..3, otherwise 0x62 and `u30(i)`, and throws RangeError for i >= 2^30 |
| Assembler.SetLocalBytes | abc.js:1227-1258 | `setlocal(i)` writes the one byte 0xd4 + i for i in 0..3, otherwise 0x63 and `u30(i)`, and throws RangeError for i >= 2^30 |
| Assembler.RelAddrsKeeps | abc.js:1092-1094 | the case loop of `lookupswitch` only appends to the stream and the fixups, keeps the fixups spaced 3 bytes apart and leaves labels and pool alone |
| Assembler.BranchKeeps | abc.js:953-1063 | a branch opcode and its displacement only append to the stream and the fixup list |
| Assembler.CallKeeps | abc.js:804-830 | the call emitters only append to the stream |
| Assembler.InternedKeeps | abc.js:1160-1205 | the pool-backed pushes only append to the pool and keep its sentinels |
| Assembler.SwitchKeeps | abc.js:1087-1095 | `lookupswitch` only appends to the stream and the fixup list |
| Assembler.EmitKeeps | abc.js:774-1362 | every emitter appends to the stream and the fixup list, keeps the fixups spaced, keeps the pool's sentinels and only appends to the pool |
| Assembler.EmitAllKeeps | abc.js:774-1362 | any sequence of emitter calls keeps the same invariant |
| Assembler.EmitAllAppend | abc.js:774-1362 | emitting two instruction lists one after the other is emitting their concatenation, stopping at the first throw |
| Assembler.PatchFromThrows | abc.js:762-765 | `applyFixups` throws exactly when some fixup's label was never placed |
| Assembler.PatchAllThrows | abc.js:761-772 | all the fixups succeed exactly when every fixup label is placed |
| Assembler.PatchFromOutside | abc.js:761-772 | every byte outside the placeholders of the remaining fixups keeps its value |
| Assembler.PatchFromField | abc.js:766-769 | byte j of a fixup's placeholder ends up holding byte j of its displacement |
| Assembler.PatchAllFields | abc.js:761-772 | after `applyFixups` every placeholder holds its displacement |
| Assembler.PatchAllFacts | abc.js:761-772 | with every label placed, `applyFixups` keeps the stream's length, writes `addresses[label] - addr` modulo 2^24 into each placeholder and changes no other byte |
| Assembler.LookupSwitchDefaultAnchor | abc.js:1087-1090 | as written, the default displacement of `lookupswitch` is counted from the end of its own field, 4 bytes after the opcode |
| Assembler.SwitchHeaderFields | abc.js:1087-1095 | the intended `lookupswitch` bytes open with 0x1b, the default displacement counted from the opcode and `case_count` = targets - 1, followed by exactly one offset per target |
| Assembler.SwitchIntendedCase | abc.js:1092-1094 | the k-th case offset of the intended bytes is the k-th target's displacement from the opcode |
| Assembler.SwitchIntendedAnchored | abc.js:1087-1095 | on the assembler state the intended `lookupswitch` succeeds for fewer than 2^30 cases, appends the intended bytes and anchors the default at the opcode, unlike the code as written |
| Assembler.OffsetsFromField | abc.js:1092-1094 | the k-th 3-byte field of a run of displacements is the k-th label's displacement |
| Assembler.SwitchPrefix | abc.js:1087-1095 | everything `lookupswitch` writes after its default field only extends the stream |
| Assembler.PutU30Appends | abc.js:380-385 | `u30` below 2^30 only appends to the stream |
| Assembler.LookupSwitchMisanchored | abc.js:1087-1095 | a switch whose default label is the switch itself gets the displacement -4 instead of 0, so the anchoring at the opcode fails |
| Assembler.LookupSwitchCountField | abc.js:1091 | the case-count field holds the number of case labels, one more than the `case_count` the AVM2 overview asks for |
| Assembler.RelAddrsLength | abc.js:1092-1094 | the case loop writes exactly 3 bytes per case label |
| Assembler.MethodBuilder.constructor | abc.js:727-732 | a new method builder has an empty stream, no fixups, no placed label, and shares the given pool |
| Assembler.MethodBuilder.U8 | abc.js:365-367 | appends `val & 255` |
| Assembler.MethodBuilder.Code | abc.js:774-1362 | an opcode byte is appended as it is |
| Assembler.MethodBuilder.U30 | abc.js:380-385 | appends the `u30` bytes or throws RangeError, and keeps the builder valid either way |
| Assembler.MethodBuilder.Fixup | abc.js:743-750 | a zero placeholder, then a fixup recorded at the new end of the stream |
| Assembler.MethodBuilder.RelativeAddress | abc.js:752-759 | the displacement of a placed label, or a fixup for one not yet placed |
| Assembler.MethodBuilder.Displacement | abc.js:753-756 | a placed label's displacement, counted from the end of the 3-byte field |
| Assembler.MethodBuilder.ApplyFixups | abc.js:761-772 | patches every pending fixup in place and clears the list, or throws for a label never placed |
| Assembler.MethodBuilder.PatchField | abc.js:767-769 | the three in-place writes of one fixup |
| Assembler.MethodBuilder.Label | abc.js:1071-1075 | records the current offset for the label, then writes 0x09 |
| Assembler.MethodBuilder.GetLocal | abc.js:885-896 | the short form for locals 0 to 3, `getlocal` with a `u30` index otherwise |
| Assembler.MethodBuilder.SetLocal | abc.js:1227-1238 | the short form for locals 0 to 3, `setlocal` with a `u30` index otherwise |
| Assembler.MethodBuilder.Fixed | abc.js:774-1362 | each single-byte emitter (`add`, `pop`, `swap`, `li8` and the rest) appends its opcode |
| Assembler.MethodBuilder.WithIndex | abc.js:804-808 | each emitter with one operand appends its opcode, then `u30` of the operand |
| Assembler.MethodBuilder.WithCall | abc.js:810-830 | `callmethod`, `callproperty` and `callproplex` append the opcode, the index and the argument count |
| Assembler.MethodBuilder.PushByte | abc.js:1154-1158 | appends 0x24 and `byte_value & 255` |
| Assembler.MethodBuilder.PushInt | abc.js:1172-1177 | interns the 32-bit signed value of `val` (bitwise-or with 0), then appends 0x2d and the pool index |
| Assembler.MethodBuilder.PushUint | abc.js:1200-1205 | interns `val >>> 0`, then appends 0x2e and the pool index |
| Assembler.MethodBuilder.PushDouble | abc.js:1160-1165 | interns the double, then appends 0x2f and the pool index |
| Assembler.MethodBuilder.Branch | abc.js:953-1063 | the branch opcode, then `relativeAddress(label)` |
| Assembler.MethodBuilder.LookupSwitch | abc.js:1087-1095 | the opcode, the default displacement, the number of case labels, then one displacement per case |
| Assembler.MethodBuilder.RelativeAddresses | abc.js:1092-1094 | `relativeAddress` for each case label in order |
| Assembler.MethodBuilder.GetProperty | abc.js:918-923 | `getproperty` calls a pool method `CPool` does not define, so it throws before writing anything |
| Assembler.GetPropertyIntendedFacts | abc.js:918-923 | as written `getproperty` always throws; as intended it succeeds exactly when the multiname's index fits a `u30`, appending 0x66 and the index of an entry equal to the multiname, and keeps every earlier byte, fixup and pool entry |
| Assembler.MethodBuilder.Emit | abc.js:774-1362 | any one emitter does what the encoding function says for that instruction |
| Assembler.MethodBuilder.EmitAll | abc.js:774-1362 | a list of emitter calls in order, stopping at the first throw |
| Assembler.MethodBuilder.ToBytes | abc.js:734-737 | `applyFixups`, then the whole patched stream |
| Assembler.BranchEncoding | abc.js:1059-1063 | a branch is its opcode byte followed by the displacement of its label |
| Assembler.PatchInPlace | abc.js:767-769 | the three in-place writes of `applyFixups` are the low, middle and high bytes of the displacement |
| Bytes.ToInt32 | abc.js:27 | a bitwise or with 0 yields a signed 32-bit integer and leaves any value already in that range unchanged |
| Bytes.ToUint32 | abc.js:37 | `val >>> 0` yields an unsigned 32-bit integer and leaves any value already in that range unchanged |
| Bytes.LE | abc.js:369-378 | the n bytes `(v >> 8i) & 255` of the fixed-width writers are exactly n bytes |
| Bytes.LERoundTrip | abc.js:369-378 | the fixed-width bytes read back, little-endian, as the value modulo 256^n |
| Bytes.LEDigit | abc.js:369-378 | byte i of the fixed-width output is base-256 digit i of the value |
| Bytes.SetAt | swf.js:78-87 | `stream[i] = v` puts v at i, and grows the array to i + 1 elements when i is past its end |
| Bytes.SetAtKeeps | swf.js:78-87 | every other element keeps its value, and the holes created past the end read back as 0 |
| Bytes.Utf8Char | abc.js:592-594 | one character encodes to between 1 and 4 UTF-8 bytes |
| Bytes.Utf8 | abc.js:592-594 | the encoding has at least as many bytes as the text has characters, and is empty exactly for the empty text |
| Bytes.Utf8Ascii | abc.js:592-594 | ASCII text encodes to its character codes, one byte each |
| Bytes.NatToString | abc.js:720 | a number renders as a nonempty string of decimal digits |
| Labels.AutoName | abc.js:719-721 | an unnamed label's name starts with `$$label$` |
| Labels.NewLabel | abc.js:716-724 | each new label is a new object; a given name is kept and leaves the counter alone, a missing one takes the incremented counter's name |
| Labels.NatToStringInjective | abc.js:720 | different counter values render as different digit strings |
| Labels.AutoNamesDiffer | abc.js:716-721 | two counter values give two different automatic names |
| Labels.SuccessiveLabels | abc.js:716-724 | two labels made one after the other are different branch targets whatever their names, and two unnamed ones also have different names |
| Labels.LabelMaker.constructor | abc.js:716 | the label counter starts at 0 |
| Labels.LabelMaker.New | abc.js:718-723 | `new Label(name)` returns the label and updates the counter as the label function specifies |
| Registry.AvmType | index.js:83-91 | `avmType` maps none to void, i32 to int, f32 and f64 to Number, and throws for i64 |
| Registry.InitialGlobalsValid | index.js:93-109 | the initial slot table holds the three reserved slots and no global |
| Registry.SlotForFacts | index.js:114-122 | a known global keeps its slot and changes nothing; a new one is appended once after the reserved slots, and only a type `avmType` rejects makes it fail |
| Registry.SlotForStable | index.js:114-122 | asking again for the same global, with any type, returns the same slot and adds none |
| Registry.LookupMethod | index.js:128-134 | `methodIndex` returns the registered index when it is truthy and throws `Unknown function` otherwise |
| Registry.AddedAllShape | index.js:124-126 | registering names appends them to the method list and adds exactly them to the index map |
| Registry.AddedAllLast | index.js:124-126 | a name registered more than once maps to the position of its last registration |
| Registry.AddedAllNames | index.js:124-126 | the method list grows by exactly the registered names, in order |
| Registry.AddedAllKeeps | index.js:124-126 | a name that is not registered again keeps its index |
| Registry.LookupKnown | index.js:128-134 | no registered name sits at index 0, so `methodIndex` rejects exactly the names never registered |
| Registry.HelperIndexes | index.js:111-147 | the nine runtime helpers get the indices 1 to 9 in the order they are registered |
| Registry.HelpersDistinct | index.js:136-147 | the nine helper names are all different |
| Registry.ModuleFunctionIndexes | index.js:1176-1181 | a module's functions, registered after the helpers, get 10, 11, ... in order, and a helper keeps its index unless a function takes its name |
| Registry.Tables.constructor | index.js:93-147 | once index.js is loaded, the tables hold the reserved slots, the reserved method and the nine helpers |
| Registry.Tables.SlotForGlobal | index.js:114-122 | updates the slot table as the slot function specifies and leaves it unchanged on a throw; the method table is untouched |
| Registry.Tables.AddMethod | index.js:124-126 | appends the name and records its index; the slot table is untouched |
| Registry.Tables.AddMethods | index.js:1176-1181 | registers each name in turn, as the first loop of `convertModule` does |
| Registry.Tables.MethodIndex | index.js:128-134 | returns what the lookup function returns for the current table |
| CodeGen.FindLabel | index.js:168-174 | `labelStack.find` succeeds exactly when some label on the stack has the name, returns the first such label, and otherwise throws `cannot find label` |
| CodeGen.LabelsByName | index.js:335 | `names.map(labelByName)` gives one label per name, each the one `labelByName` finds, or stops with the error of an unknown name |
| CodeGen.AvmTypes | index.js:1030-1032 | `types.map(avmType)` succeeds exactly when every type has an AVM2 name, and then names each one |
| CodeGenFacts.GenKeeps | index.js:177-1019 | converting any expression leaves the label stack as it found it and only appends to the code |
| CodeGenFacts.GenBlockKeeps | index.js:177-184 | a successful `visitBlock` leaves the label stack as it found it (the label it pushes is popped again) and only appends to the code |
| CodeGenFacts.GenIfKeeps | index.js:186-289 | `visitIf` leaves the label stack unchanged |
| CodeGenFacts.GenLoopKeeps | index.js:291-298 | a successful `visitLoop` leaves the label stack as it found it (the start label it pushes is popped again) and only appends to the code |
| CodeGenFacts.GenFunctionKeeps | index.js:1025-1071 | a whole function body ends with the label stack it started with |
| CodeGenFacts.GenInitKeeps | index.js:1043-1060 | the local-initialisation loop leaves the label stack unchanged and only appends code |
| CodeGenFacts.LabelByNameFacts | index.js:168-174 | `labelByName` finds a label exactly when one on the stack has the name, and throws `cannot find label` otherwise |
| CodeGenFacts.BreakToUnknownLabel | index.js:300-312 | a `br` to a name no enclosing block or loop declares stops the conversion with that error and emits nothing |
| CodeGenFacts.IntPushForms | index.js:536-545 | an i32 constant is `pushbyte` for 0..255, `pushshort` up to 2^30 - 1, and `pushint` of a pool entry otherwise |
| CodeGenFacts.ConstForms | index.js:536-557 | i32 constants push as above; f32 and f64 push NaN or a pool double; any other type throws |
| CodeGenFacts.FusedCondition | index.js:189-261 | a comparison condition of `visitIf` becomes its operands (each converted with `convert_u` for the unsigned ones) and one branch to the end label, taken when the comparison is false |
| CodeGenFacts.OtherConditions | index.js:262-277 | `eqz x` as a condition is `x; pushbyte 0; ifstrictne`, and any other condition is evaluated and followed by `iffalse` |
| CodeGenFacts.IfWithoutElse | index.js:186-282 | an `if` without an else arm is the condition, the then-arm and a new end label placed right after it |
| CodeGenFacts.LocalGetShifts | index.js:385-390 | `local.get k` reads register k + 1, register 0 being `this` |
| CodeGenFacts.LocalSetShifts | index.js:421-425 | a `local.set k` that is not fused is the value, `dup` for a tee, then `setlocal(k + 1)` |
| CodeGenFacts.InitLocals | index.js:1043-1060 | each declared local is first set to zero, `pushbyte 0` for int and `pushdouble 0` for Number, in the registers after `this` and the parameters |
| CodeGenFacts.IncrementNotFused | index.js:397-402 | as written, `local.set k (i32.add (local.get k) (i32.const 1))` is not fused, because the test compares the shifted index; it becomes get, increment, set |
| CodeGenFacts.IncrementFusedWrongly | index.js:397-409 | as written, setting local k from `local.get (k + 1)` plus 1 is fused into an in-place increment of register k + 1, local k's own register, so local k becomes its old value plus 1 instead of local (k + 1)'s value plus 1 |
| CodeGenFacts.LocalStepIntended | index.js:397-402 | the intended test fuses only `local.get` of the local being set plus or minus 1 |
| CodeGenFacts.IntendedStepFusesSelf | index.js:397-417 | with the intended test `x = x + 1` and `x = x - 1` are fused, and `x = y + 1` never is |
| CodeGenFacts.OffsetFolds | index.js:446-455 | a nonzero static offset is a constant push and `add_i` after the pointer; offset 0 adds nothing |
| CodeGenFacts.StoreShape | index.js:489-534 | a store is the pointer, the offset, the value, `swap`, then the store opcode chosen by type and width |
| CodeGenFacts.StoreOpcodes | index.js:516-533 | i32 stores use si8, si16 or si32 by width and any other width throws; f32 and f64 use sf32 and sf64 |
| CodeGenFacts.LoadOpcodes | index.js:456-486 | i32 loads use li8, li16 or li32, signed 8- and 16-bit loads add the sign extension, and f32 and f64 use lf32 and lf64 |
| CodeGenFacts.AddSubOne | index.js:697-718 | `x + 1` and `x - -1` become `increment_i`, `x + -1` and `x - 1` become `decrement_i`, without pushing the constant |
| CodeGenFacts.CallResultTails | index.js:345-358 | a call's result is popped for void, converted with `convert_i` for i32 and `convert_d` for f32 and f64, and any other type throws |
| CodeGenFacts.SelectShape | index.js:969-978 | `visitSelect` is ifTrue, ifFalse, the condition, then `iftrue L; swap; label L; pop` with a new label L |
| CodeGenFacts.NopEmits | index.js:1013-1015 | a `nop` node emits exactly the `nop` opcode |
| CodeGenFacts.DropSkipsOperand | index.js:980-982 | `visitDrop` emits `pop` without visiting its operand |
| CodeGenFacts.DropIntendedFacts | index.js:980-982 | as intended, `visitDrop` keeps the label stack and only appends, emits the operand's code and then `pop`, and differs from the code as written whenever the operand emits anything |
| CodeGenFacts.UnreachableEmitsNothing | index.js:1017-1019 | `visitUnreachable` emits nothing |
| CodeGenFacts.LoopShape | index.js:291-298 | `visitLoop` is the label, the body and an unconditional jump back to the label |
| CodeGenFacts.IfElseShape | index.js:280-288 | with an else arm, the then-arm's end label is placed before the jump over the else arm, so the false branch lands on that jump |
| Translator.Converter.constructor | index.js:163-166 | the closure starts with an empty instruction log, an empty label stack, `labelIndex` 0, and the shared label counter and tables |
| Translator.Converter.Put | index.js:163-1019 | the builder calls made by a callback are appended to the log in order |
| Translator.Converter.Traverse | index.js:149-161 | `traverse` dispatches to the callback of the node's kind and produces what the code generation function specifies for that node |
| Translator.Converter.TraverseControl | index.js:149-161 | dispatch for the control-flow and call nodes |
| Translator.Converter.TraverseValue | index.js:149-161 | dispatch for the value-producing nodes |
| Translator.Converter.TraverseAll | index.js:182 | `forEach(traverse)` converts the children in order, stopping at the first throw |
| Translator.Converter.VisitBlock | index.js:177-184 | a named or numbered label is pushed, the children converted, the label placed and popped |
| Translator.Converter.VisitIf | index.js:186-289 | the condition, the then-arm, the end label, then for an else arm the jump, the else arm and its end label, in the source's order |
| Translator.Converter.Condition | index.js:189-277 | the switch on the condition's kind and operator, ending in one branch to the end label |
| Translator.Converter.Operands | index.js:189-261 | the two operands of a comparison, each followed by `convert_u` for the unsigned ones |
| Translator.Converter.VisitLoop | index.js:291-298 | pushes and places the loop label, converts the body, jumps back, pops the label |
| Translator.Converter.VisitBreak | index.js:300-312 | finds the label, converts the value, then `iftrue` after the condition or `jump` |
| Translator.Converter.VisitSwitch | index.js:314-337 | throws for a value, otherwise converts the condition and emits `lookupswitch` to the named labels |
| Translator.Converter.EmitCall | index.js:344-358 | the call instruction, then the result conversion chosen by the result type |
| Translator.Converter.VisitCall | index.js:340-359 | `this`, the operands, `callmethod` of the target's index and the result conversion |
| Translator.Converter.VisitCallIndirect | index.js:361-383 | `this`, the table slot, the target, the operands, `callproperty` of multiname 1 and the result conversion |
| Translator.Converter.VisitLocalSet | index.js:392-427 | the fused in-place increment or decrement when the test as written matches, otherwise the value, `dup` for a tee and `setlocal` |
| Translator.Converter.VisitGlobalGet | index.js:429-433 | `this`, then `getslot` of the global's slot, allocating the slot on first use |
| Translator.Converter.VisitGlobalSet | index.js:435-440 | `this`, the value, then `setslot` of the global's slot |
| Translator.Converter.EmitOffset | index.js:446-455 | the static offset push and `add_i`, only for a positive offset |
| Translator.Converter.VisitLoad | index.js:442-487 | the pointer, the offset, then the load opcodes chosen by type, width and signedness |
| Translator.Converter.VisitStore | index.js:489-534 | the pointer, the offset, the value, `swap`, then the store opcode |
| Translator.Converter.VisitConst | index.js:536-558 | the push form chosen by type and value |
| Translator.Converter.HelperCall1 | index.js:562-567 | `this`, the helper's index, the operand, `callmethod(index, 1)` and the given tail |
| Translator.Converter.ScratchCall | index.js:639-651 | a reinterpretation through the scratch store and load helpers: store call, `pop`, load call and conversion |
| Translator.Converter.ScratchLoad | index.js:646-649 | the load half of a reinterpretation: `this`, the load helper's call with no argument, the conversion; an unknown helper fails before anything is written |
| Translator.Converter.VisitUnary | index.js:560-691 | the switch on the unary operator, including the operators it refuses with an error |
| Translator.Converter.StepOp | index.js:697-718 | `add` and `sub` of a constant 1 or -1 become `increment_i` or `decrement_i`, anything else the general opcode |
| Translator.Converter.HelperCall2 | index.js:693-967 | the two operands of a helper-backed binary operator and its `callmethod` |
| Translator.Converter.VisitBinary | index.js:693-967 | the switch on the binary operator, with the opcodes and conversions of each case |
| Translator.Converter.VisitSelect | index.js:969-978 | ifTrue, ifFalse, condition, `iftrue L`, `swap`, `label L`, `pop` |
| Translator.Converter.VisitReturn | index.js:984-991 | the value and `returnvalue`, or `returnvoid` |
| Translator.Converter.VisitMemoryGrow | index.js:995-1001 | `this`, the operand, `callmethod` of the grow helper, `convert_i` |
| Translator.Converter.VisitMemorySize | index.js:1002-1007 | `this`, `callmethod` of the size helper with no argument, `convert_i` |
| Translator.Converter.InitLocals | index.js:1043-1060 | each declared local is zeroed in its register, and a local type other than int and Number throws |
| Translator.Converter.ConvertBody | index.js:1039-1071 | the locals' zeroes, the body, and `returnvoid` for a void function, for a function that is not imported |
| Driver.Assemble | index.js:1085-1089 | encoding a function's instructions into a fresh method builder and applying its fixups keeps the pool's sentinels and only appends to the pool |
| Driver.ExtendsKeepsString | abc.js:59-70 | a string interned earlier keeps its index as the pool grows |
| Driver.ExtendsKeepsNamespace | abc.js:72-78 | the global namespace keeps its index as the pool grows |
| Driver.ExtendsKeepsTypeName | abc.js:88-94 | a type's QName keeps its index as the pool grows |
| Driver.GlobalNs | index.js:1078 | `file.namespace('')` returns an index holding a namespace whose kind is the string `''` and whose name is the interned string "undefined" (the missing second argument), and only appends to the pool |
| Driver.TypeNameOf | index.js:1081 | `file.qname(globalns, t)` returns an index holding the QName of t in the global namespace |
| Driver.TypeNames | index.js:1082 | the parameter types map to one QName index each, in order |
| Driver.GenerateCode | index.js:163-1060 | the callbacks run from the closure's start state, and the builder ends up holding their instructions encoded in order, or the first exception |
| Driver.AddMethodInfo | index.js:1078-1083 | the global namespace, the function name, the result type and the parameter types are interned, and exactly one signature naming them is appended to the file |
| Driver.CompileAfterGen | index.js:1025-1079 | once the callbacks have run, the outcome of the compilation is decided by their outcome and the encoding of their code |
| Driver.ConvertFunction | index.js:163-1094 | `convertFunction` compiles the function as the compile function specifies; on success the file gains exactly one signature and one body for it, the pool only grows and the label counter and tables advance as the generator says |
| Driver.Record | index.js:1078-1089 | the signature record, then the body record with `local_count` = locals + 1 and the fixed-up code, appended to the file |
| Scenarios.AddFunctionCode | index.js:1025-1079 | the wasm function `(i32, i32) -> i32` returning `local.get 0 + local.get 1` becomes `getlocal 1`, `getlocal 2`, `add_i`, `returnvalue`, with no `returnvoid` |
| Scenarios.AddFunctionBytes | index.js:1025-1094 | its code bytes are d1 d2 c5 48, its AVM2 signature is (int, int): int, and it adds nothing to the pool |
| StackMachine.PlaceOf | abc.js:1071-1075 | a branch goes to a position that holds the `label` instruction of its target |
| StackMachine.SelectChooses | index.js:969-978 | the tail `visitSelect` emits leaves ifTrue when the condition is nonzero and ifFalse otherwise, with the rest of the stack untouched |
| StackMachine.PlaceOfFirst | abc.js:1071-1075 | a branch goes to the first `label` for its target |
| StackMachine.PlacesAsWritten | index.js:280-288 | in the order `visitIf` emits an if/else, the then-arm's end label precedes the jump over the else arm |
| StackMachine.PlacesIntended | index.js:280-288 | in the intended order, the end label the false branch goes to follows the jump over the else arm |
| StackMachine.IfElseSkipsElse | index.js:280-288 | as written, for any condition, arm values and stack below, a false condition skips both arms, so the else arm never runs, while a true condition runs the then-arm |
| StackMachine.IfElseIntendedChooses | index.js:280-288 | in the intended order, for any condition, arm values and stack below, a nonzero condition runs only the then-arm and zero runs only the else arm |
| StackMachine.NopLoopCode | index.js:291-298 | `(loop $l (nop))` compiles to the label, the `nop` and an unconditional jump back: the as-written loop code with one `nop` |
| StackMachine.NopLoopNeverExits | index.js:296 | a loop over any number of `nop`s, as emitted, never leaves the loop from any position in it, however many steps it runs, although WebAssembly runs the body once |
| StackMachine.NopLoopIntendedExits | index.js:291-298 | without the appended jump, a loop over any number of `nop`s runs its body once and falls through with the stack unchanged, given one step per instruction |
| SwfUtils.BitsOf | utils.js:51-55 | `bits(val, n)` produces exactly n bits, none for n <= 0 |
| SwfUtils.BitsOfValue | utils.js:51-55 | for n up to 32, the n bits written read back, most significant first, as the value's 32-bit signed form modulo 2^n |
| SwfUtils.UnsignedField | utils.js:57-59 | `ub(v, n)` writes exactly v when v fits in n bits (and in a 32-bit signed integer) |
| SwfUtils.BitAtSmall | utils.js:53 | for a 32-bit value and a shift below 32, `(v >> k) & 1` is base-2 digit k of v |
| SwfUtils.SignBit | utils.js:61-63 | the top bit of an n-bit field holding v is the sign of v |
| SwfUtils.LowBits | utils.js:61-63 | the low n bits of a value that fits n-bit two's complement read unsigned as v, or v + 2^n when v is negative |
| SwfUtils.SignedField | utils.js:61-63 | `sb(v, n)` writes exactly v when v fits in n bits of two's complement |
| SwfUtils.BitOfValue | utils.js:51-55 | `(val >> k) & 1` of a value read from at most 31 bits is the k-th bit from the end |
| SwfUtils.BitsOfValueInverse | utils.js:51-55 | reading up to 31 bits as a number and writing it back with `bits` gives the same bits |
| SwfUtils.Pack | utils.js:35-49 | the bytes a bit run is packed into: one per 8 bits, rounding up for the padded last one |
| SwfUtils.ByteValue | utils.js:45 | eight accumulated bits form the byte whose value they spell, most significant first |
| SwfUtils.Unpack | utils.js:35-49 | reading bytes back as bits gives 8 bits per byte |
| SwfUtils.PackAppend | utils.js:35-49 | packing a whole number of bytes' worth of bits, then the rest, is packing the whole run |
| SwfUtils.UnpackPack | utils.js:35-49 | unpacking the packed bytes gives back the bits, followed only by the zero padding of the last byte |
| SwfUtils.Builder.constructor | utils.js:2-4 | a new builder has an empty stream |
| SwfUtils.Builder.ToBytes | utils.js:10-12 | returns the bytes written so far |
| SwfUtils.Builder.Out | utils.js:14-16 | appends `val & 255` and nothing else |
| SwfUtils.Builder.Offset | utils.js:18-20 | returns the position the next byte is written at |
| SwfUtils.BitInByte | utils.js:45 | a bit that does not complete a byte goes to a still-clear position, so the bitwise-or assignment adds it to the value of the pending bits |
| SwfUtils.BitCompletesByte | utils.js:46-47 | the eighth bit completes a byte, which is the eight pending bits |
| SwfUtils.BitKeeps | utils.js:43-49 | both cases of `bit` keep the stream equal to the packed complete bytes and the accumulator equal to the pending bits |
| SwfUtils.FlushPads | utils.js:35-41 | flushing an incomplete byte writes it padded with zero bits |
| SwfUtils.Bitstream.constructor | utils.js:24-28 | a new bit stream has an empty stream, accumulator 0 and no pending bit |
| SwfUtils.Bitstream.Flush | utils.js:35-41 | writes the bits of the run so far, packed with zero padding, and starts a new, empty run |
| SwfUtils.Bitstream.Bit | utils.js:43-49 | appends `val & 1` to the run, keeping the invariant that the accumulator holds only the pending bits, at their positions |
| SwfUtils.Bitstream.Bits | utils.js:51-55 | appends the n low bits of the value, most significant first (proved with the loop's invariant) |
| SwfUtils.Bitstream.Ub | utils.js:57-59 | an unsigned field: the n low bits of the value |
| SwfUtils.Bitstream.Sb | utils.js:61-63 | a signed field: the n low bits of the value |
| SwfUtils.Bitstream.ToBytes | utils.js:30-33 | flushes, then returns everything written: the bytes before the run, then the run packed |
| Swf.ByteOfIsDigit | swf.js:18-23 | `(val >>> 8k) & 255` is byte k of the value's little-endian encoding |
| Swf.TagBytes | swf.js:54-62 | a record takes two bytes of code and length, four more when the payload is 63 bytes or longer, then the payload |
| Swf.TagRoundTrip | swf.js:54-62 | a record reads back as its code and its payload, whatever follows it; the long form is used exactly when the payload has 63 bytes or more |
| Swf.ShowFrameBytes | swf.js:138-141 | a ShowFrame record is the two bytes 0x40 0x00 |
| Swf.Clz32 | swf.js:42-43 | `Math.clz32` counts the leading zero bits of the low 32 bits: 32 minus their bit length |
| Swf.FieldWidth | swf.js:38-43 | the field width is between 1 and 33 and leaves room for every coordinate's magnitude plus a sign bit |
| Swf.SmallMagnitude | swf.js:42-43 | a coordinate below 2^30 in magnitude has at most 30 significant bits |
| Swf.FitsField | swf.js:42-50 | a coordinate whose bit length is below the field width fits that signed field |
| Swf.ParseRectFields | swf.js:45-51 | a record made of a five-bit width n and four n-bit fields reads back as those four signed fields |
| Swf.RectFieldsFit | swf.js:37-52 | for coordinates below 2^30, the width is at most 31, fits its five bits, and each of the four fields written holds its value exactly |
| Swf.RectReadsBack | swf.js:37-52 | the record reads back as x, width, y, height, the values written into the Xmin, Xmax, Ymin, Ymax fields |
| Swf.RectAtOrigin | swf.js:101-106 | at the origin the header uses, the record is the rectangle (Xmax = width, Ymax = height) |
| Swf.RectAwayFromOrigin | swf.js:47-50 | away from the origin Xmax reads back as the width instead of x + width: (1, 0, 1, 1) gives Xmax = 1 |
| Swf.SymbolTable | swf.js:152-162 | one (id, name) entry per symbol, in order |
| Swf.CStringRoundTrip | swf.js:31-35 | a string without NUL bytes written with its terminating zero reads back as itself, followed by what comes next |
| Swf.EntryStep | swf.js:155-159 | one entry is read off the front as its 16-bit id and its name, then the remaining entries |
| Swf.EntriesRoundTrip | swf.js:155-159 | the entries written read back as each symbol's id (its entry in `tags`, or 0 when it has none, modulo 2^16) and UTF-8 name |
| Swf.SymbolClassRoundTrip | swf.js:152-162 | a SymbolClass payload reads back as the count and every symbol's id and name, in order |
| Swf.FrameLabelIntendedReadsBack | swf.js:128-136 | the intended FrameLabel payload (the name, its 0, and the anchor flag byte 1 for an anchor) reads back as the name and the flag, and without an anchor equals what `frameLabel` writes |
| Swf.AttributeBytes | swf.js:115-126 | the 32 bits `fileAttributes` writes pack into the four-byte payload with the flags in their positions |
| Swf.PackOneByte | utils.js:35-49 | eight bits pack into the one byte they spell |
| Swf.PackZeros24 | swf.js:123 | 24 reserved zero bits pack into three zero bytes |
| Swf.BitsOfZero | swf.js:117 | `bits(0, n)` is n zero bits |
| Swf.ValueOfByte | utils.js:45 | the value of eight bits, bit by bit from 128 down to 1 |
| Swf.WriteLength | swf.js:79-83 | the four byte stores of the length fixup replace the field with the little-endian value and leave every other byte |
| Swf.WriteCount | swf.js:85-86 | the two byte stores of the frame count fixup replace the field with the little-endian count |
| Swf.FixedSplit | swf.js:78-87 | `applyFixups` is the length written into its field, then the frame count into its own |
| Swf.FixupsFill | swf.js:78-87 | with both fields inside the stream, the length field ends up holding the stream's length and the count field the frame count; the rest is unchanged |
| Swf.FixupsFillHeader | swf.js:78-113 | with the offsets `header` records, the final file is the signature, its own total length, the frame rectangle, the rate, the frame count, then the body |
| Swf.HeaderSpelled | swf.js:89-113 | the fields `header` writes one after the other spell the header: signature FWS and version 38, length placeholder, frame rectangle, rate, count placeholder |
| Swf.SwfBuilder.constructor | utils.js:2-4 | a new builder's stream is empty |
| Swf.SwfBuilder.ToBytes | utils.js:10-12 | returns the stream |
| Swf.SwfBuilder.Ui8 | swf.js:9-11 | appends the value's low byte |
| Swf.SwfBuilder.Ui16 | swf.js:13-16 | appends the value's low 16 bits, little-endian |
| Swf.SwfBuilder.Ui32 | swf.js:18-23 | appends the value's low 32 bits, little-endian |
| Swf.SwfBuilder.Bytes | swf.js:25-29 | appends the bytes, in order |
| Swf.SwfBuilder.String | swf.js:31-35 | appends the UTF-8 bytes and a terminating zero |
| Swf.SwfBuilder.Rect | swf.js:37-52 | appends the bit-packed rectangle record, which `RectReadsBack` reads back |
| Swf.SwfBuilder.Tag | swf.js:54-62 | appends the record that `TagRoundTrip` reads back as the code and the payload |
| Swf.PackAttributes | swf.js:116-125 | the FileAttributes payload built through a bit stream is the four-byte payload with the four flags |
| Swf.WriteFlags | swf.js:118-122 | the five `bit` calls append the four flags, a reserved zero fourth, keeping the bit stream's invariant |
| Swf.SwfFileBuilder.constructor | swf.js:66-71 | an empty stream, both fixup offsets 0 and no frame |
| Swf.SwfFileBuilder.ApplyFixups | swf.js:78-87 | the stream becomes the fixed-up stream: length and frame count stored at their offsets |
| Swf.SwfFileBuilder.ToBytes | swf.js:73-76 | returns the fixed-up stream |
| Swf.SwfFileBuilder.Header | swf.js:89-113 | appends the header and records the offsets of the length and frame count fields, which `FixupsFillHeader` shows are filled correctly |
| Swf.SwfFileBuilder.FileAttributes | swf.js:115-126 | appends a FileAttributes record (code 69) with the flags' payload |
| Swf.SwfFileBuilder.FrameLabel | swf.js:128-136 | without an anchor, appends a FrameLabel record (code 43) with the name; with one, fails with a TypeError and writes nothing |
| Swf.SwfFileBuilder.ShowFrame | swf.js:138-141 | appends a ShowFrame record and counts one more frame, the offsets unchanged |
| Swf.SwfFileBuilder.DoAbc | swf.js:143-150 | appends a DoABC record (code 82): the 32-bit flags, the name, the bytecode |
| Swf.SwfFileBuilder.SymbolClass | swf.js:152-162 | appends a SymbolClass record (code 76) whose payload `SymbolClassRoundTrip` reads back |

## Left out

- AbcWriter.U30Value: a string field is modelled as non-numeric text, which JavaScript converts to 0. A numeric string such as `'5'` converts to its number in JavaScript (`u30('5')` writes 5), and the model does not capture that. The only strings the translator stores in such fields are `''`, `'int'`, `'Number'`, `'void'` and function names, which are used as names only.
- The command line, file reading and writing (index.js:5-27, index.js:1199-1203), console tracing and the `log` method of the abc.js builder: I/O with no effect on the bytes written.
- binaryen itself: module parsing, the optimisation passes and the imports and exports that `convertModule` adds (index.js:1096-1167), and `getExpressionInfo`/`getFunctionInfo`. The input is the `WasmIr.Expr` datatype holding the fields the visitors read.
- `convertModule` beyond the method-index loop (index.js:1176-1181) and one `convertFunction` call: the loop over all functions and the final `toBytes` are not a separate member; the pieces they call are modelled.
- The raw heap decoding of case names in `visitSwitch` (index.js:325-334): the model receives the names as strings.
- `d64`'s IEEE-754 bit pattern (abc.js:415-420): a double is an opaque 8-byte pattern or NaN; pool equality on doubles is equality of those patterns, except that +0 and -0 are equated as `===` equates them; the model does not relate a pattern to the number it encodes.
- `Math.round(framerate * 256)` (swf.js:108): `Header` takes the frame rate already scaled and rounded.
- `Bitstream.fb` (utils.js:65-67): fixed-point floats are never written by the core.
- `TextEncoder`: replaced by the model's own UTF-8 function (`Bytes.Utf8`); Dafny strings hold Unicode scalar values, so lone surrogates do not arise.
- `script_info`, `class_info`, `traits_info` and `exception_info` are undefined in the source and `instance_info` has an empty body; they are modelled only as empty tables. `ABCBuilder.item` (abc.js:510-516) reads an undefined variable and is not part of this model.
- Stack depth: the source never computes `max_stack`; the model does not either.
- demo/demo.js, demo/index.js, src/demo.js, sample/ and webpack.config.js: browser glue, a bundle, compiler input and build configuration.
- AbcStream.D64Bytes: states only that a double takes 8 bytes, because the IEEE-754 encoding is left out.
- Swf.RectReadsBack: proved for coordinates whose magnitudes, and those of x + width and y + height, are below 2^30, and whose width and height need no more bits than the far edges; outside those bounds the computed field can be narrower than the value written.
- Swf.RectFieldsFit: the same bounds as `RectReadsBack`.
- Swf.TagRoundTrip: requires a code below 1024 and a payload shorter than 2^32 bytes, the ranges of the 10-bit code and the 32-bit length.
- Assembler.SwitchIntendedAnchored: the intended `lookupswitch` is defined only for targets whose addresses are already known; opcode-anchored fixups for labels placed later are not modelled.
- Registry.SlotForFacts: `globalSlots` is a plain object (index.js:115), so a global named after an inherited property such as `constructor`, `toString` or `__proto__` finds the inherited value rather than undefined; the model's map holds only the names put into it and does not cover such names.
- Registry.SlotForStable: the same inherited-property names are not covered, as for `SlotForFacts`.
- Registry.Tables.SlotForGlobal: the same inherited-property names are not covered, as for `SlotForFacts`.
- Registry.LookupMethod: `methodIndexes` is a plain object (index.js:129), so a lookup of `constructor`, `toString` or another inherited property finds a truthy function instead of throwing; the model's map does not, so such names are not covered.
- Registry.LookupKnown: the same inherited-property names are not covered, as for `LookupMethod`.
- Registry.Tables.MethodIndex: the same inherited-property names are not covered, as for `LookupMethod`.
- Swf.EntriesRoundTrip: `tags[name] || 0` (swf.js:156) reads a plain object, so a symbol named after an inherited property such as `toString` gets a function rather than 0 as its id; the model's map gives 0, so such names are not covered.
- Swf.SymbolTable: the same inherited-property names are not covered, as for `EntriesRoundTrip`.
- Swf.SymbolClassRoundTrip: requires names without NUL bytes and fewer than 2^16 symbols; otherwise the payload cannot be read back unambiguously.

## Deviations

The model follows the code as written. Where a line is evidently a slip, a lemma
shows what the code does, and a separate definition or lemma states the intended
property. Two rows have no intended member, because the intended behaviour needs
something the model leaves out: a stack-depth analysis for `max_stack`, and a
meaning for a trap in the instruction reading of `StackMachine`.

| source | as written | intended | as-written member | intended member |
|---|---|---|---|---|
| abc.js:401-413 | `bits > 0` is checked before `bits -= 7`, so every byte of a nonzero `u32` carries the continuation bit, the last one included | the last byte has bit 7 clear (section 4.1 of the AVM2 Overview) | AbcStream.U32FlagsEveryByte, AbcStream.U32AsWrittenMisread | AbcStream.U32IntendedRoundTrip |
| abc.js:387-399 | the same slip in `s32`; every byte carries the continuation bit, even for 0 | as above, with sign extension | AbcStream.S32FlagsEveryByte | AbcStream.S32IntendedRoundTrip |
| abc.js:380-385 | because of that slip two `u30` fields in a row are ambiguous: (1, 129) and (129, 1) give the same bytes | each field ends where its last byte has bit 7 clear | AbcWriter.PairAmbiguous | AbcStream.U32IntendedRoundTrip |
| abc.js:616-620 | the QName branch of `multiname_info` writes `kind` where the namespace index belongs | the namespace index, then the name | AbcWriter.QNameDropsNamespace | AbcWriter.QNameIntendedKeepsNamespace |
| abc.js:80-86 | `namespaceSet` pushes an undeclared name, so every new set throws a ReferenceError | the set is appended | ConstantPool.InternNamespaceSetFacts | ConstantPool.InternNamespaceSetIntendedFacts |
| abc.js:606-611 | `ns_set_info` iterates the set object itself, which throws a TypeError | the count, then each namespace index | AbcWriter.NsSetTableOk | AbcWriter.NsSetGap |
| abc.js:918-923 | `getproperty` calls `addMultiname`, which `CPool` does not define | the multiname is interned with `multiname` | Assembler.MethodBuilder.GetProperty | Assembler.GetPropertyIntendedFacts |
| abc.js:1087-1095 | `lookupswitch` counts its displacements from the end of the 3-byte field, and writes the number of cases instead of one less | displacements from the opcode's address; `case_count` is the number of offsets minus one | Assembler.LookupSwitchDefaultAnchor, Assembler.LookupSwitchMisanchored, Assembler.LookupSwitchCountField | Assembler.SwitchIntendedAnchored, Assembler.SwitchHeaderFields, Assembler.SwitchIntendedCase |
| abc.js:305-316 | `max_stack` falls back to 4096 when omitted and also when 0 is given | a computed stack depth | AbcWriter.MaxStackDefault | — |
| index.js:280-288 | `visitIf` places the then-arm's end label before the jump over the else arm, so a false condition skips both arms | the jump, then the label | CodeGenFacts.IfElseShape, StackMachine.IfElseSkipsElse | StackMachine.IfElseIntendedChooses |
| index.js:291-298 | `visitLoop` appends an unconditional jump back to the loop label, so a loop that does not branch never ends | a loop falls through at its end | StackMachine.NopLoopCode, StackMachine.NopLoopNeverExits | StackMachine.NopLoopIntendedExits |
| index.js:397-402 | the fused increment compares the shifted index with the unshifted `local.get` index, so `x = x + 1` is not fused, and `x = y + 1` with y = x + 1 is fused into an in-place increment of register k + 1, local k's own register, so local k becomes its old value plus 1 instead of local (k + 1)'s value plus 1 | fuse exactly when the local read is the local written | CodeGenFacts.IncrementNotFused, CodeGenFacts.IncrementFusedWrongly | CodeGenFacts.LocalStepIntended, CodeGenFacts.IntendedStepFusesSelf |
| index.js:980-982 | `visitDrop` emits `pop` without evaluating its operand | evaluate, then pop | CodeGenFacts.DropSkipsOperand | CodeGenFacts.DropIntendedFacts |
| index.js:1017-1019 | `visitUnreachable` emits nothing | a trap | CodeGenFacts.UnreachableEmitsNothing | — |
| swf.js:47-50 | `rect` writes width and height where Xmax and Ymax belong | Xmax = x + width, Ymax = y + height | Swf.RectAwayFromOrigin | Swf.RectAtOrigin (the only call, from `header`, is at the origin) |
| swf.js:128-136 | `frameLabel` with an anchor calls `bit`, which `SWFBuilder` does not have | the NamedAnchor flag byte 1 after the name | Swf.SwfFileBuilder.FrameLabel | Swf.FrameLabelIntendedReadsBack |
