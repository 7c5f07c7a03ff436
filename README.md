# A verified model of a small compiler backend

This project models the code-generation core of a compiler for a small
imperative language: the backend that type-checks expressions and emits
LLVM-style text. It has three parts, and each one is proved against its own
contracts.

- **Type rules** (`Types.cpp`): which type tokens are numeric and which are
  valid, when a value may be assigned to a variable, and when a node is
  boolean. Identifier references are resolved through the symbol table.
- **Register allocator** (`registerAllocator.h`, `registerAllocator.cpp`):
  - a 32-bit register counter that names `%tN` registers and is incremented
    first;
  - a string-constant counter that names `wN` constants and is incremented
    afterwards;
  - the identifier→register map;
  - the creation of registers and of arithmetic instructions.
- **Backpatch protocol** (`Types.cpp`): how if/else, while, break/continue,
  switch, logical not and short-circuit and/or emit their jumps. Each open
  jump slot is queued on a node's `trueList`, `falseList`, `nextList` or
  `startLoopList`. The lists are handed to the parent node, which later fills
  the slots with labels.

The modules are:

- `Outcomes`: error kinds, `Option`, `Result` and `Outcome`.
- `Decimal`: decimal printing of numbers, proved injective.
- `TypeRules`: the type predicates. The symbol table is a `map` from
  identifier to type.
- `Buffer`: the instruction buffer. The buffer's own code is not part of this
  model, so it is modelled abstractly:
  - a sequence of instruction records, each with an optional FIRST and
    SECOND jump target;
  - a list of global lines;
  - a label counter;
  - a map from each label to the position it stands at.
- `Ast`: the syntax-tree `Node` class, with `realtype`, `loadExp` and
  `assertBoolean`.
- `Registers`: the `RegisterAllocator` class and the `replace` helper.
- `Codegen`: the `Node` code-emitting methods and `CaseList::emitCase`.
- `Operators`: the constructors of `BinaryLogicOp`, `UnaryLogicOp`, `RelOp`
  and `StringExp`.
- `Calls`: `createLlvmArguments` and `Node::emitCallCode`.

How the C++ maps onto the model:

- Objects whose fields the source updates are classes, and the methods on
  them carry `modifies` clauses.
- A C++ constructor such as `BinaryLogicOp(left, right, …)` is a method. It
  fills in a freshly allocated node `n`.
- Every `errorMismatch(…); exit(-1)` is a `Fail(TypeMismatch)` or
  `Err(TypeMismatch)` result. The state after a failure is what the source
  has changed before its exit. That is nothing, with two exceptions:
  - `UnaryLogicOp` loads its operand before the type check (Types.cpp:409),
    so after a failure the operand's value is already `loadVar(id)`;
  - `createRegister` takes its register before it meets a type it cannot
    materialize (registerAllocator.cpp:21), so its error still advances the
    counter.
- Instruction texts are written exactly as the source builds them. This
  includes its spacing, such as `"to i8"` in the byte register and
  `"br i1" + reg` in the division guard.

`checkForValidType` reports an unknown type through `errorMismatch`, so the
model fails it with `TypeMismatch`.

## Model

| member | source | states |
|---|---|---|
| TypeRules.IsNumeric | Types.cpp:14-18 | a type is numeric exactly when it is int or byte; both are valid types and neither is bool |
| TypeRules.CheckForValidType | Types.cpp:20-36 | passes exactly for void, bool, int, string and byte; every other string fails with TypeMismatch |
| TypeRules.AssertAssignableTypes | Types.cpp:38-52 | an ID or "unknown_type" operand is first replaced by its identifier's declared type; the result is an error exactly when `toExit` is set and the resolved pair is neither equal nor int←byte; otherwise it is true exactly for those pairs |
| TypeRules.AssignableReflexive | Types.cpp:42-51 | any type that needs no resolving is assignable to itself, in both modes |
| TypeRules.SameDeclaredTypeAssignable | Types.cpp:39-51 | two identifier references with the same declared type are assignable |
| TypeRules.OnlyWideningCrossesTypes | Types.cpp:42-49 | int←byte is the only accepted pair of different resolved types; byte←int is rejected (an error with `toExit`, false without) |
| TypeRules.AssignableIsPartialOrder | Types.cpp:42-43 | the assignment rule is antisymmetric and transitive |
| TypeRules.GetLlvmType | Types.cpp:91-99 | the result is "void" exactly for the void type, and "i32" for every other type |
| Ast.AssertBoolean | Types.cpp:54-65 | passes exactly when the node's real type is bool; its second lookup of a leftover ID never changes the verdict; otherwise TypeMismatch |
| Ast.Node.Realtype | Types.cpp:76-83 | a variable reference has its declared type from the symbol table; any other node has its own tag |
| Ast.Node.LoadExp | Types.cpp:85-89 | a variable reference's value becomes `loadVar(id)`; any other node keeps its value |
| Decimal.NatToString | registerAllocator.h:26 | the stream text of a number: decimal digits whose value is the number |
| Decimal.NatToStringInjective | registerAllocator.h:26 | different numbers print differently |
| Decimal.IntToString | registerAllocator.h:31 | the stream text of a signed number, a minus sign then the digits of its magnitude |
| Decimal.IntToStringInjective | registerAllocator.h:31 | different signed numbers print differently |
| Registers.Bump | registerAllocator.h:24 | `counter += increment` on an unsigned int: exact while the sum fits in 32 bits, and equal to the sum modulo 2^32 otherwise |
| Registers.AdvanceExact | registerAllocator.h:23-28 | below 2^32, n single allocations move the counter by exactly n |
| Registers.RegisterNameInjective | registerAllocator.h:25-27 | two counter values give the same `%tN` name exactly when they are equal |
| Registers.StringConstantNameInjective | registerAllocator.h:30-32 | two counter values give the same `wN` name exactly when they are equal |
| Registers.FirstNames | registerAllocator.h:35 | a fresh allocator names `%t1` as its first register and `w0` as its first string constant |
| Registers.CounterTraceIncreasing | registerAllocator.h:23-28 | successive calls with positive increments that stay below 2^32 leave strictly increasing counter values, all above the start |
| Registers.SuccessiveRegisterNamesDistinct | registerAllocator.h:23-28 | so the register names such calls return are pairwise distinct |
| Registers.Find | registerAllocator.cpp:12 | `find`: the first position at or after the start where the pattern stands; None when the pattern stands nowhere from there on |
| Registers.ReplaceFirst | registerAllocator.cpp:11-17 | the first occurrence of the pattern is replaced; a string without the pattern is returned unchanged |
| Registers.ByteLiteralMarkerStripped | registerAllocator.cpp:27 | for a byte literal `<digits>b`, exactly the marker b is removed |
| Registers.LookupStable | registerAllocator.h:41-46 | the default entry that `getVarRegister` inserts changes no later lookup and no existing binding |
| Registers.RegisterAllocator.constructor | registerAllocator.h:35 | both counters start at 0 and the map starts empty |
| Registers.RegisterAllocator.GetNextRegisterName | registerAllocator.h:23-28 | the counter moves by the increment (modulo 2^32) first, and the returned name is the one for the new value |
| Registers.RegisterAllocator.GetCurrentRegisterName | registerAllocator.h:37-39 | the counter is unchanged and the name is that of the register allocated last |
| Registers.RegisterAllocator.CreateStringConstant | registerAllocator.h:29-34 | the name is `w` followed by the old string counter, which then moves by the increment; the register counter is not touched |
| Registers.RegisterAllocator.GetVarRegister | registerAllocator.h:41-46 | the fallback for INVALID_ID or an undeclared identifier, otherwise the mapped register ("" when unmapped, which `operator[]` then inserts); nothing else in the map changes |
| Registers.RegisterAllocator.AddVariable | registerAllocator.h:47-51 | the name is bound to `%position`; every other binding is kept and no other key is added |
| Registers.RegisterAllocator.CreateRegister | registerAllocator.cpp:19-46 | exactly one register is consumed; the instruction depends on the real type: int gives an identity add, byte a trunc with the first b removed, and bool an add of 1 exactly for "true" and 0 otherwise; any other real type is an error; on success the node's value is the new register, and the map is rebound only for a variable reference |
| Registers.RegisterAllocator.CreateArithmeticCode | registerAllocator.cpp:49-76 | each operand is its identifier's register if mapped, otherwise its value; add, sub and mul consume one register and sdiv and udiv two; the instruction is named with the last register |
| Buffer.PatchAllEffect | Types.cpp:264 | a backpatch makes every listed slot target the label and leaves every other slot and every text unchanged |
| Buffer.PatchAllPrefix | Types.cpp:264 | patching entries of the old buffer does not touch records appended later |
| Buffer.Merge | Types.cpp:267 | the merged list holds every entry of both lists and stays within the buffer |
| Buffer.CodeBuffer.Emit | Types.cpp:124 | appends one record with both slots open and returns its index |
| Buffer.CodeBuffer.GenLabel | Types.cpp:263 | returns a label never generated before, standing at the position of the next record |
| Buffer.CodeBuffer.Bpatch | Types.cpp:264 | the new buffer is the old one with the listed slots set to the label |
| Buffer.CodeBuffer.EmitGlobal | Types.cpp:405 | appends one global line |
| Codegen.AddBreak | Types.cpp:123-126 | appends one open jump and queues its FIRST slot on nextList |
| Codegen.AddContinue | Types.cpp:128-131 | appends one open jump and queues its FIRST slot on startLoopList |
| Codegen.EmitWhileOpen | Types.cpp:133-135 | the node's nextInstruction is a fresh label at the next record |
| Codegen.EmitSwitchOpen | Types.cpp:137-140 | appends one open jump and queues its FIRST slot on nextList |
| Codegen.EmitWhileEnd | Types.cpp:142-154 | continues are patched to the loop start, then a jump back to the start is appended; a fresh end label after it receives the breaks and the test's false exits, and the test's true exits go to the start |
| Codegen.LoopEndTargetAt | Types.cpp:145-153 | where a loop end leaves a pending jump: true exits at the start, breaks and false exits at the end label, and continues that nothing overrides at the start |
| Codegen.EmitWhileExp | Types.cpp:156-168 | one register is consumed and a truncate-and-branch record is appended; its true slot goes to a fresh body label and its false slot is queued on falseList |
| Codegen.EmitCaseLabel | Types.cpp:170-177 | the node's nextInstruction is a fresh label at the next record |
| Codegen.MergeLists | Types.cpp:179-185 | nextList and startLoopList are the merges of the two children's lists |
| Codegen.EmitReturnCode | Types.cpp:216-223 | appends `ret` of the node's register as getVarRegister resolves it |
| Codegen.EmitIfCode | Types.cpp:225-235 | one register is consumed and exactly a compare and a two-way branch are appended; the branch's FIRST slot is queued on trueList and its SECOND on falseList |
| Codegen.BpatchIf | Types.cpp:237-242 | true exits go to nextInstruction and false exits to the given label; both lists end up empty |
| Codegen.EmitElseCode | Types.cpp:244-250 | appends one open jump, queues it on nextList, and labels the record after it |
| Codegen.CasesTextAppend | Types.cpp:381-383 | the case table of two case lists is the first table followed by the second |
| Codegen.CaseEntryAt | Types.cpp:381-383 | each case's entry stands in the table between the entries before it and those after it |
| Codegen.CaseExitTargetAt | Types.cpp:378-394 | after a switch, breaks go to the after-switch label, the switch's entry jumps go to the dispatch label, and other slots are unchanged |
| Codegen.CaseList.BuildSwitchText | Types.cpp:380-384 | the loop builds the switch text followed by every case in list order |
| Codegen.CaseList.EmitCaseDispatch | Types.cpp:376-378 | appends the jump that ends the last arm; a fresh label after it receives the switch's entry jumps |
| Codegen.CaseList.EmitCaseSwitch | Types.cpp:380-395 | appends the switch; its default slot goes to defaultLabel when there is a default and otherwise to a fresh after-switch label; breaks and the last arm's jump go after the switch |
| Codegen.CaseList.EmitCase | Types.cpp:374-396 | the whole emitCase: two fresh distinct labels at stated positions, and the buffer patched and extended as above |
| Operators.LogicOpClosing | Types.cpp:296-303 | the four closing backpatches turn the six open records into the records with their stated targets |
| Operators.LogicOpOpen | Types.cpp:262-265 | an open jump is appended; a fresh label after it receives the marker's breaks and the left operand's false exits |
| Operators.LogicOpLeftTest | Types.cpp:269-276 | one register is consumed; the left operand is tested against 0 (eq for and, ne for or) and a two-way branch is appended |
| Operators.LogicOpRightValue | Types.cpp:280-288 | a fresh label, two registers, the right operand widened to a 0/1 word, and an open jump |
| Operators.LogicOpJoin | Types.cpp:291-303 | a fresh join label and the phi (0 for and, 1 for or) in a fresh register; every pending slot of the six records is patched |
| Operators.LogicOpEnter | Types.cpp:260-276 | the opening and the left test together |
| Operators.LogicOpLeave | Types.cpp:280-303 | the right value and the join together |
| Operators.LogicOpCode | Types.cpp:260-351 | exactly four registers and three fresh labels; both operands are loaded, the map is changed only by the two lookups, and the buffer gains exactly the six records with their targets |
| Operators.BinaryLogicOp | Types.cpp:252-355 | passes exactly when both operands are bool; on failure nothing changes; and gives trueList = right's and falseList = left's merged with right's, or trueList = left's merged with right's and falseList = right's for or; the value is the phi register |
| Operators.UnaryLogicOp | Types.cpp:408-424 | loads the operand, then passes exactly when it is bool; consumes one register for `1 - value`; the operand's true and false exits become the node's false and true exits |
| Operators.RelOp | Types.cpp:357-372 | passes exactly when both operands are numeric; on failure nothing changes; both operands are loaded and the value is the comparison's register |
| Operators.StringExp | Types.cpp:398-406 | an empty literal fails; otherwise it takes the next `wN` name, with value `%wN`, global `@.wN` and a `[len-1 x i8]` type, and appends the constant's global line |
| Operators.QuotedLiteralConstant | Types.cpp:404-405 | for a quoted literal the array counts the characters between the quotes plus the terminator, and the constant holds exactly those characters |
| Calls.Pieces | Types.cpp:103-118 | one piece per argument: its type, then, with an expression list, its register as getVarRegister resolves it |
| Calls.JoinedIsJoin | Types.cpp:103-106 | the list the loop builds from the end is the comma-separated list read from the front |
| Calls.LookupsStable | Types.cpp:113-115 | the lookups of earlier arguments change neither a later argument's register nor any existing binding |
| Calls.AppendArgument | Types.cpp:104-118 | one loop step: the separator unless this is the first argument, then the next piece; the map gains that argument's lookup |
| Calls.CreateLlvmArguments | Types.cpp:101-121 | the text is "(" plus the pieces of the first n arguments joined by ", " plus ")"; each piece is read through the map as it stood before the loop; the map ends up as the fold of the lookups |
| Calls.PieceShape | Types.cpp:107-117 | an argument is written as a pointer exactly when its node is string-tagged, and carries a register only with an expression list |
| Calls.CallHeader | Types.cpp:197-209 | print is preceded by the string constant's getelementptr; a function returning a value consumes one register, which becomes the node's value and is written as `reg = `; nothing is consumed for void |
| Calls.EmitCall | Types.cpp:210-212 | exactly one instruction is appended: the header, then `call`, the type and the callee, then the argument list |
| Calls.EmitCallCode | Types.cpp:187-214 | the whole emitCallCode: one instruction of getelementptr prefix, result register, `call <llvm type> @name` and argument list; one register is consumed exactly when the return type is not void |

## Left out

- Output and diagnostics are not modelled: debug `cout` printing, the text of `errorMismatch` and `yylineno`. A failure result stands for the diagnostic and the `exit(-1)`.
- The symbol table, the instruction buffer and label text are external. They are modelled abstractly: a map, a record sequence, and labels named `label_N`. `genLabel` and `genLabelNextLine` are both `Buffer.CodeBuffer.GenLabel`, because both name the position of the next record. A backpatch sets a record's target instead of rewriting its `@` text.
- `loadVar`, `storeVar`, `functionProlog`, `funcionEpilog`, `functionGetVarReg`, `getVarStackReg` and `emitCmpCode` are declared in registerAllocator.h without bodies here, and `varToStackMap` is only used by them. `loadVar` and `emitCmpCode` are function parameters of the members that call them; the others are not modelled.
- The text of the type tokens and of `INVALID_ID` comes from Types.h, which is not part of this model. Distinct placeholder strings are used for them.
- For an identifier it does not hold, the symbol table's `getReturnType` is taken to answer the empty string, which is no valid type.
- registerAllocator.h:36 declares `createRegister` with a different signature. The definition in registerAllocator.cpp is modelled.
- The division-by-zero labels `@divideByzero@` and `@continueCode@` are never resolved. Registers.DivisionGuard only writes them as text, and only their register consumption matters.
- `delete` of child nodes passes ownership only and has no observable effect.
- `errorByteTooLargeAndExit` (Types.cpp:67-74) only prints a diagnostic and exits, so it is not modelled.
- `string_counter` is an `int`, and its overflow is not modelled: Registers.RegisterAllocator.CreateStringConstant counts without bound. The register counter's 32-bit wrap-around is modelled.
- Operators.StringExp: for an empty literal the source has already set `type` and `id`, advanced `string_counter` and formatted an underflowed length before `std::string::replace` throws. The model fails without any of these effects.
- Calls.EmitCallCode requires that `print` has at least one argument and that the call node is not among its own arguments. The source dereferences the argument list without checking. The casts to `ExpList` and `StringExp` are modelled as an optional sequence of nodes, and `print`'s first argument is read through the string fields of `Node`.
- Calls.CreateLlvmArguments requires at least `numArguments` expressions when there is a list. The source reads past the vector otherwise.
- Registers.ReplaceFirst returns the edited string and does not edit its argument in place. The only caller, createRegister, uses just the returned text and never reads `value` again.
- Ast.Node.LoadExp, Operators.LogicOpCode, Operators.BinaryLogicOp, Operators.UnaryLogicOp and Operators.RelOp assume that `loadVar` and `emitCmpCode` have no effect on the register counter, the identifier map or the buffer. They also assume `loadVar` gives the same text each time for the same identifier. Both are allocator members whose bodies are not shown, and they may well emit a load and take a register. The stated register counts (four for and/or, one for not, none for a comparison) and the record positions hold only under this assumption.
- Operators.StringExp models a literal as its byte sequence, one `char` per byte, so `|str|` is `_str.length()`. A literal with multi-byte characters is not distinguished.
