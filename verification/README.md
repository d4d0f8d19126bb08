# A verified model of the YoptaScript toolchain

yoptascript-rs implements YoptaScript, a JavaScript-like language with slang keywords: a lexer and parser, a
tree-walking interpreter, a bytecode compiler with a stack machine, a formatter, a JavaScript generator and a debug
adapter. This project models seven parts of it and proves what each is for. `dafny verify dfyconfig.toml` checks
everything.

**Compiled scripts.** `Syntax`, `Values` and `Semantics` give scripts their meaning: a big-step evaluator over scopes of
cells, with fuel for loops. It takes a backend: the interpreter, compiled code, or both at once, which stops at the first
step the two take differently. `Bytecode` is the machine, `Folding` and `Codegen` say which code each construct stands for,
and `Slots`, `ExprParts`, `ExprProof`, `StmtShape`, `StmtProof` and `ScriptProof` prove that running that code is the
meaning, error for error and for runs that never end; `Fuel` shows that more fuel changes no answer. `Emission`,
`Constructs`, `SwitchLayout` and `Compiler` are the compiler as it runs, a class that appends operations and patches jumps,
proved to emit exactly that code. `StackHeights` proves the static stack discipline. `Toolchain.CompileScript` puts it
together with nothing assumed about the stored chunk. `LanguageLaws`, `VariableLaws` and `Labels` fix the meaning from
outside: laws of operators, values, variables, loops, `switch` and labels that hold for all expressions and statements, on
every backend.

**Backend parity.** `Parity` compares the interpreter with compiled code step by step, with an exact condition for every
kind of step, and proves that a run without a parting step is the same on both. `EvenScripts` is a property of a script's
text that rules such steps out, and `Partings` holds scripts that part.

**Upvalues.** `Captures` is the resolver of captured variables and what an upvalue slot stands for. `UpvalueCells` is the
machine's stack with its open and closed cells, `UpvalueTies` proves that it behaves as if every slot were a variable that
closures hold, and `UpvalueExits` says which pops at the end of a scope or before a jump keep it so. `UpvalueLaws` says what
a program sees of those variables.

**Garbage collection.** `Heap`, `Marking`, `Sweeping` and `Collector`: the worklist marker over every kind of cell, the
sweep that empties cells so that reference counting can finish, and the registries.

**Debug adapter.** `DebugSession` is the session, `DebugWorld` the two threads with their queue, channel and flag as a
transition system over all interleavings. `DebugLaws` says what a client gets for its requests, over every schedule.

**Printers.** `Surface`, `TokenSink`, `Reader` and `Parser` are the precedence table, token output and the
precedence-climbing parser, and `ReadingLaws` what the table means for operators next to each other; `FmtPrinter` is the
formatter's expression printer; `JsGrammar` and `JsPrinter` are the operator grammar of ECMA-262 and the JavaScript printer.
`Brackets` and `JsBrackets` count the brackets both printers write against the fewest possible.

**Source maps and root reads.** `SourceMap` is the Base64 VLQ encoder of ECMA-426 with its decoder. `Scripts`,
`Environments`, `Runs` and `RootReads` are the static resolver that lets reads skip the scope chain, the environment, an
evaluator with closures, and the proof that skipping cannot be observed as long as no `try` goes on in a frame of the code
it tried. `Guards` and `TryFrames` are a property of a script's text under which none does, and `Leaks` the exact conditions
for single steps. `FreeNames` collects the free identifiers of a script in the opposite direction from the resolver, and
`EnvironmentLaws` and `RunLaws` say what is read after the environment's operations and in a running script.

Numbers are opaque: one record supplies arithmetic, comparison and text conversion to folding, machine and interpreter
alike, so every result holds for IEEE 754 and any other arithmetic.

## Findings

Where a promised property is false of the code, the code was kept, an input is given and the exact condition is proved.

- The two backends do not agree on every script. They part on ten kinds of step: `typeof` of an undeclared name; `delete`
  of an operand whose evaluation fails or has effects; `-`, `*`, `/`, `%`, `**` on operands that are not numbers; `~` on a
  non-number; `++` and `--` on a non-number; a number literal that reads as NaN; a store to a cell not yet initialized, or
  to a name that some scope on the chain has as a constant; a constant declared again as a variable in its scope; and a
  `continue` aimed at a labelled statement that is no loop, inside a loop with the same label. `Parity` gives the exact
  condition for each but the last, which always parts, and `Partings` the inputs
  (`UndeclaredTypeofParts`, `EarlyStoreParts`, `ShadowedConstParts`). A store compiled to a slot not marked initialized
  always parts (`SlotStoresAlike`). On whole runs the absence of a parting step suffices for equal endings
  (`BackendsAgree`). It cannot be necessary: `PartedMayEndAlike` is a run that parts and ends alike. Where the step is one
  the interpreter answers with an error of its own the endings do differ (`PartedForGood`), and a backend that stops at
  the step stops with a known error (`PartedEnding`). For scripts whose text is `Even` the agreement is unconditional
  (`EvenBackendsAgree`).
- The machine can underflow on an accepted script (`BareDeclarationUnderflows`): a declaration as the unbraced body of an
  `if` inside a block adds a slot that is popped even when the declaration was skipped. The theorems on compiled scripts
  ask for `TidyList`, no bare declaration below a local scope. That condition suffices; whether an untidy script goes
  wrong depends on whether the bare declaration runs as often as its scope ends, which only the run decides.
- The formatter's text reads back as another expression where a postfix operator follows a bracketed operator expression
  (`PostfixOnProduct`); `RoundTrip` holds exactly for the `Faithful` expressions. The JavaScript printer changes the
  meaning of an assignment to a bracketed non-name (`ConditionalTarget`); `PrintsJavaScript` holds exactly when
  `TargetsAreNames`.
- Neither printer writes the fewest brackets. Both bracket a postfix operator inside an operator that binds tighter than
  level 13, as in `a * (b++)`, and the JavaScript printer brackets an assignment after the colon of a conditional. Nothing
  else is superfluous: `Brackets.FewestBrackets` and `JsBrackets.FewestBrackets` give the exact number of such pairs, and the
  text is the shortest exactly if it is zero (`ShortestIff`).
- An error that leaves a `for` inside `try`, or a call whose parameters fail to bind, leaves the interpreter in a frame
  deeper than the `try` statement's, so a read in the handler may depend on whether the resolver recorded it (`TryLeaks`).
  Nothing of the kind happens in a `Guarded` script (`GuardedRunsFast`), whatever its input. For single steps the conditions
  are exact: `ForMoves`, `ForEachMoves` and `CallMoves` say when the frame is left behind, `HandlersApart` when that is
  observed.
- A jump out of nested loops ends the slots in between by the marks known when it is compiled. A closure later in the text
  that captures one of them marks it too late: the slot ends with a plain pop while a cell still points at it, and the
  closure then reads whatever takes the slot (`BrokenOutReads`). `ExitsAreClean` is the exact condition on the marks,
  `PopKeepsTie` the one on the cells.
- A sweep leaves garbage behind exactly if a garbage cycle avoids every registered cell (`SweepIsComplete`).

## Model

| member | source | states |
|---|---|---|
| `Folding.FoldSound` | crates/yps-vm/src/compiler.rs:2148-2239 | whatever the variables hold, an expression that folds evaluates to its folded constant and changes nothing |
| `Folding.FoldsByKind` | crates/yps-vm/src/compiler.rs:2148-2239 | what is folded can be told without computing: number, text and truth literals, brackets, three prefix operators, and operators between two constants of one kind; and the kind of the result |
| `Slots.ResolveIsHolder` | crates/yps-vm/src/compiler.rs:213-223 | the slot name resolution picks is the cell the running program sees: the innermost scope holding the name, the last slot of that name in it |
| `Slots.MirrorsRead` | crates/yps-vm/src/compiler.rs:2046-2062 | where a read compiles, the slot (or global) read is the value the program reads; a slot marked initialized is one whose cell is ready, and conversely |
| `Slots.MirrorsWrite` | crates/yps-vm/src/compiler.rs:2064-2081 | storing to the resolved slot is assigning to the cell the program sees, and slots and scopes still correspond |
| `Slots.MirrorsBlock` | crates/yps-vm/src/compiler.rs:284-317 | entering a block: one undefined, uninitialized slot a declaration corresponds to one unready cell a declared name |
| `ExprProof.RunExpr` | crates/yps-vm/src/compiler.rs:1413-1437 | running the code of an expression leaves its value on top of the same operands with slots still mirroring the scopes, or fails with the same error and globals |
| `StmtShape.StmtSlots` | crates/yps-vm/src/compiler.rs:326-416 | compiling a statement leaves the compiler with the slots it found, plus one for a bare local declaration |
| `StmtProof.RunStmt` | crates/yps-vm/src/compiler.rs:326-416 | running the code of a statement does what the statement means by every way out: normal end, break or continue to the right loop with that loop's slots, return, error, or still running when fuel runs out |
| `StmtProof.RunSwitch` | crates/yps-vm/src/compiler.rs:477-526 | the comparisons pick the first equal case, exactly its body runs, and every end of the switch leaves the stack as it was |
| `StmtProof.RunFor` | crates/yps-vm/src/compiler.rs:1250-1302 | a for loop with optional header, test and update does what the loop means, labelled break and continue included |
| `ScriptProof.ScriptRuns` | crates/yps-vm/src/compiler.rs:118-141 | compilation preserves meaning: the code of a tidy script ends with the result, error and globals of its meaning on compiled code, or has made at least as many steps as the fuel and goes on |
| `ScriptProof.HaltsIffTerminates` | crates/yps-vm/src/compiler.rs:118-141 | the machine halts exactly for the scripts that terminate |
| `ScriptProof.HaltIsEnding` | crates/yps-vm/src/compiler.rs:118-141 | wherever the machine halts, the script has that ending |
| `ScriptProof.FuelIrrelevant` | crates/yps-interpreter/src/interpreter/mod.rs:206-261 | for any script on any backend, more fuel never changes an ending that is reached |
| `ScriptProof.MachineErrors` | crates/yps-vm/src/vm.rs:240-464 | no run of the machine reports a read before initialization, or one of the errors only the interpreter knows |
| `ScriptProof.NoReadBeforeInit` | crates/yps-vm/src/compiler.rs:2046-2062 | an accepted script never reads a declared name before its declaration has run, although the machine does not check |
| `ScriptProof.BareDeclarationUnderflows` | crates/yps-vm/src/compiler.rs:713-735 | a script the compiler accepts, with a declaration as the bare body of an if in a block, whose run underflows the stack |
| `Bytecode.RunOpsIsRun` | crates/yps-vm/src/vm.rs:240-248 | running stored operations, with absolute targets and constant indices, is running the instructions they stand for |
| `Labels.LoopLabelInvisible` | crates/yps-vm/src/compiler.rs:1182-1203 | labelling any of the three kinds of loop and aiming the jumps of its body at the label leaves its code as it was, in any place |
| `Labels.LoopLabelMeansNothing` | crates/yps-vm/src/compiler.rs:1182-1203 | and its meaning, on every backend |
| `Labels.LabelTakesNoContinue` | crates/yps-vm/src/compiler.rs:2083-2085 | a statement that is no loop, labelled, with a continue to the label inside and no such loop around, is refused |
| `Labels.LabelOnStatement` | crates/yps-vm/src/compiler.rs:1187-1201 | labelling such a statement keeps its code, every break to the label going to its end |
| `Labels.LabelTakesBreaks` | crates/yps-vm/src/compiler.rs:1187-1201 | and its meaning, a break to the label ending it normally |
| `VariableLaws.StoredIsRead` | crates/yps-vm/src/compiler.rs:2064-2081 | on every backend a store to a readable name is read from then on, and no other variable changes |
| `VariableLaws.StoresGoThrough` | crates/yps-vm/src/compiler.rs:2064-2081 | it goes through exactly if the name can be read, constants aside |
| `VariableLaws.DeclaredIsRead` | crates/yps-vm/src/compiler.rs:713-735 | a declared variable reads as its value at once, and no other variable changes |
| `VariableLaws.ConstantStays` | crates/yps-interpreter/src/environment.rs:273-290 | a declared constant refuses every store: on the interpreter always, in compiled code as a global, and as a local by its mark |
| `VariableLaws.BlockVariableIsGone` | crates/yps-vm/src/compiler.rs:706-711 | a variable declared in a block is gone behind it, and what it hid is there again |
| `VariableLaws.TooEarly` | crates/yps-vm/src/compiler.rs:2046-2062 | reading a block's variable before its declaration is an error, whatever the name is outside |
| `VariableLaws.Dropped` | crates/yps-vm/src/compiler.rs:1688-1740 | void gives undefined, delete of a non-member true, and returning nothing returns undefined |
| `LanguageLaws.CompoundIsAssignment` | crates/yps-vm/src/compiler.rs:1878-1916 | each of the twelve arithmetic compound assignments is the assignment of its operator, on every backend |
| `LanguageLaws.LogicalAssignIsGuarded` | crates/yps-vm/src/compiler.rs:1918-1931 | a logical assignment is the operator with an assignment on its right: nothing is stored when it stops early |
| `LanguageLaws.DeMorgan` | crates/yps-vm/src/compiler.rs:1782-1799 | negating a conjunction is the disjunction of the negations and the other way round, effects and errors included |
| `LanguageLaws.ShortCircuitIsChoice` | crates/yps-vm/src/compiler.rs:1782-1799 | with a quiet left operand both logical operators are conditionals |
| `LanguageLaws.NullishIsChoice` | crates/yps-vm/src/compiler.rs:1800-1811 | with a quiet left operand the nullish operator is a comparison with null and a choice |
| `LanguageLaws.LeftComesFirst` | crates/yps-vm/src/compiler.rs:1813-1851 | the left operand is evaluated first, and the right one only if the operator goes on |
| `LanguageLaws.NegatedIf` | crates/yps-vm/src/compiler.rs:344-360 | negating the condition of an if exchanges its branches |
| `LanguageLaws.StepIsCompound` | crates/yps-vm/src/compiler.rs:1933-1946 | an increment of a number stores what adding one stores and gives the value from before |
| `LanguageLaws.FalseValues` | crates/yps-vm/src/value.rs:404-415 | the false values are those strictly equal to undefined, null, false, either zero or the empty text |
| `LanguageLaws.TypeofTells` | crates/yps-vm/src/value.rs:440-462 | typeof tells the kinds of primitive values apart |
| `LanguageLaws.Equalities` | crates/yps-vm/src/value.rs:609-653 | both equalities are symmetric, agree on values of one type, and only a NaN differs from itself; strictly equal values have one type |
| `LanguageLaws.LooseEquality` | crates/yps-vm/src/value.rs:636-653 | a truth value is compared as one or zero, a text with a number as the number it reads as, and null and undefined equal each other alone |
| `LanguageLaws.ArithmeticOnNumbers` | crates/yps-vm/src/vm.rs:305-352 | which function of `f64` or of 32-bit integers each of the twelve operators is on numbers |
| `LanguageLaws.OperandsAreConverted` | crates/yps-vm/src/vm.rs:317-352 | compiled code takes operands for the numbers unary plus makes of them |
| `LanguageLaws.Conversions` | crates/yps-vm/src/value.rs:464-479 | what number a text, a truth value, null and undefined count as |
| `LanguageLaws.TextsAreJoined` | crates/yps-vm/src/vm.rs:2998-3008 | with a text on either side plus joins the texts of both, in order |
| `LanguageLaws.TextsOfConstants` | crates/yps-vm/src/value.rs:481-496 | what text truth values, null and undefined join as |
| `LanguageLaws.BigIntsStayApart` | crates/yps-vm/src/vm.rs:3082-3103 | arithmetic and comparison of a BigInt with anything else is refused |
| `LanguageLaws.NegatedBigInt` | crates/yps-vm/src/vm.rs:276-291 | negating a BigInt is taking it from zero, and unary plus refuses it |
| `LanguageLaws.ComparisonsFlip` | crates/yps-vm/src/vm.rs:3119-3131 | turning a comparison round exchanges less with greater |
| `LanguageLaws.Comparisons` | crates/yps-vm/src/vm.rs:3119-3131 | what the comparisons come to on numbers, texts and BigInts, unordered numbers included |
| `LanguageLaws.BigIntsAreExact` | crates/yps-vm/src/vm.rs:3291-3320 | sums, differences and products of BigInts are exact, or refused exactly when they leave 128 bits |
| `LanguageLaws.BigDivision` | crates/yps-vm/src/vm.rs:3291-3320 | quotient and remainder fit together, the remainder has the dividend's sign, and exactly the least number divided by -1 overflows |
| `LanguageLaws.BigPower` | crates/yps-vm/src/vm.rs:3291-3320 | powers multiply as exponents add; negative exponents and results beyond 128 bits are refused |
| `LanguageLaws.UnderscoresAreSkipped` | crates/yps-vm/src/compiler.rs:2143-2146 | underscores in a number literal are passed over and nothing else is |
| `LanguageLaws.LiteralsDiffer` | crates/yps-vm/src/compiler.rs:1564-1590 | different literals are different values, numbers that read alike aside |
| `LanguageLaws.LiteralsAddUp` | crates/yps-vm/src/compiler.rs:1564-1590 | the sum of two text or BigInt literals is the literal of the sum |
| `LanguageLaws.DoIsBodyThenWhile` | crates/yps-vm/src/compiler.rs:1234-1248 | do-while is the body and then the while loop |
| `LanguageLaws.OnlyContinues` | crates/yps-vm/src/compiler.rs:1219-1248 | in while and do-while a body that only continues is an empty body |
| `LanguageLaws.ForOnlyContinues` | crates/yps-vm/src/compiler.rs:1250-1302 | in for as well: the update still runs |
| `LanguageLaws.OnlyBreaks` | crates/yps-vm/src/compiler.rs:1219-1302 | a body that only breaks runs at most once |
| `LanguageLaws.SwitchTriesInOrder` | crates/yps-vm/src/compiler.rs:477-526 | the first case is taken exactly if strict equality holds of it, and then its block alone runs; otherwise the switch is the one without it |
| `StackHeights.ExprLevel` | crates/yps-vm/src/compiler.rs:1413-1523 | an expression nets one value at one height an instruction, whatever lies below |
| `StackHeights.StmtLevel` | crates/yps-vm/src/compiler.rs:326-416 | a statement nets the growth of the slots; every break and continue arrives at the height its loop expects |
| `StackHeights.ScriptLevel` | crates/yps-vm/src/compiler.rs:118-141 | every instruction of a script has one height, the same along all paths, with operands present and slots below it |
| `StackHeights.RunKeepsHeight` | crates/yps-vm/src/vm.rs:240-464 | whatever the values are, every run keeps to the heights |
| `StackHeights.NeverStuck` | crates/yps-vm/src/vm.rs:3140-3142 | no run of an accepted tidy script underflows, reads a missing slot or leaves the code |
| `Emission.Chunk.PushOp` | crates/yps-vm/src/chunk.rs:236-241 | appends the operation and returns its position |
| `Emission.Chunk.AddConstant` | crates/yps-vm/src/chunk.rs:243-246 | appends the constant, without sharing, and returns its index |
| `Emission.Chunk.PatchJump` | crates/yps-vm/src/chunk.rs:248-258 | changes the target of that one jump and nothing else |
| `Compiler.Compiler.PatchJump` | crates/yps-vm/src/chunk.rs:248-258 | turns a placeholder into a jump of the given distance; every other instruction keeps its reading |
| `Compiler.Compiler.CompileLiteral` | crates/yps-vm/src/compiler.rs:1564-1590 | appends exactly the literal's code |
| `Compiler.Compiler.CompileVarGet` | crates/yps-vm/src/compiler.rs:2046-2062 | appends the read of the resolved slot or global, or fails for a slot not yet initialized |
| `Compiler.Compiler.CompileVarSet` | crates/yps-vm/src/compiler.rs:2064-2081 | appends the store to the resolved slot or global, or fails for a constant |
| `Compiler.Compiler.CompileUnary` | crates/yps-vm/src/compiler.rs:1688-1740 | appends the operator's code, folded where it folds; void and delete drop their operand's value |
| `Compiler.Compiler.CompileBinary` | crates/yps-vm/src/compiler.rs:1758-1851 | appends the code of any binary operator, or fails as the construct does |
| `Compiler.Compiler.CompileCompoundAssign` | crates/yps-vm/src/compiler.rs:1878-1916 | appends read, operand, operator and store |
| `Compiler.Compiler.CompileLogicalAssign` | crates/yps-vm/src/compiler.rs:1918-1931 | appends the short-circuiting assignment with its jump patched behind the store |
| `Compiler.Compiler.CompileNullish` | crates/yps-vm/src/compiler.rs:1800-1811 | appends the nullish operator with both jumps patched |
| `Compiler.Compiler.CompilePostfix` | crates/yps-vm/src/compiler.rs:1933-1946 | appends the increment or decrement, or fails for an operand that is no name |
| `Compiler.Compiler.CompileConditional` | crates/yps-vm/src/compiler.rs:1426-1437 | appends the conditional with both jumps patched |
| `Compiler.Compiler.CompileExpr` | crates/yps-vm/src/compiler.rs:1413-1523 | appends exactly the code the construct stands for and fails exactly when and as it does |
| `Compiler.Compiler.EndScope` | crates/yps-vm/src/compiler.rs:159-178 | pops the slots of the ended scope, in code and bookkeeping |
| `Compiler.Compiler.ReserveLocals` | crates/yps-vm/src/compiler.rs:284-300 | reserves one undefined slot a declaration, in order |
| `Compiler.Compiler.CompileLocalList` | crates/yps-vm/src/compiler.rs:284-317 | appends a block's statements, each declaration filling its reserved slot |
| `Compiler.Compiler.CompileBlockScoped` | crates/yps-vm/src/compiler.rs:706-711 | appends a whole block: reservations, statements, pops |
| `Compiler.Compiler.CompileVarDecl` | crates/yps-vm/src/compiler.rs:713-735 | a declaration defines a global at depth 0 and takes a new slot elsewhere |
| `Compiler.Compiler.CompileIf` | crates/yps-vm/src/compiler.rs:344-360 | appends the if with its jumps patched to the else part and the end |
| `Compiler.Compiler.PushLoop` | crates/yps-vm/src/compiler.rs:1209-1217 | opens a loop with the given slots and label and no pending jumps |
| `Compiler.Compiler.FinishLoop` | crates/yps-vm/src/compiler.rs:1304-1312 | patches exactly the pending jumps of the innermost loop to its two targets and forgets it |
| `Compiler.Compiler.CompileWhile` | crates/yps-vm/src/compiler.rs:1219-1232 | appends the whole loop with break, continue and exit jumps closed |
| `Compiler.Compiler.CompileDoWhile` | crates/yps-vm/src/compiler.rs:1234-1248 | appends the whole loop, continue going to the test |
| `Compiler.Compiler.CompileFor` | crates/yps-vm/src/compiler.rs:1250-1302 | appends the whole loop, update between test and body, inside its own scope |
| `Compiler.Compiler.CompileLabeled` | crates/yps-vm/src/compiler.rs:1182-1203 | hands the label to a loop, or makes the statement a target of break alone |
| `Compiler.Compiler.FindLoopIndex` | crates/yps-vm/src/compiler.rs:1314-1320 | finds the innermost enclosing target a jump may go to |
| `Compiler.Compiler.PopLocalsTo` | crates/yps-vm/src/compiler.rs:1401-1411 | appends the pops down to the slots a loop keeps, leaving the bookkeeping alone |
| `Compiler.Compiler.CompileBreak` | crates/yps-vm/src/compiler.rs:1326-1343 | appends the pops and a jump recorded with the right loop, or fails |
| `Compiler.Compiler.CompileContinue` | crates/yps-vm/src/compiler.rs:1382-1399 | the same for continue, which only loops take |
| `Compiler.Compiler.CompileSwitch` | crates/yps-vm/src/compiler.rs:477-526 | appends all comparisons, the default jump, the bodies and the default with every jump patched |
| `Compiler.Compiler.CompileStmt` | crates/yps-vm/src/compiler.rs:326-416 | appends exactly the code the statement stands for, keeps slots, depth and loops as the construct does, and fails exactly when and as it does |
| `Compiler.Compiler.CompileGlobalList` | crates/yps-vm/src/compiler.rs:269-282 | appends the statements of a script in order |
| `Compiler.CompileProgram` | crates/yps-vm/src/compiler.rs:118-141 | the stored chunk reads as the script's code, with every constant in place and no jump pending; or the first error |
| `Toolchain.CompileScript` | crates/yps-vm/src/compiler.rs:118-141 | compiling succeeds exactly when the script has code; then the stored chunk of a script with `TidyList`, from any globals, comes to what the script means, does what the interpreter does wherever no step parts the two, so always for an even script, and never makes the machine panic |
| `Parity.StoresAlike` | crates/yps-interpreter/src/environment.rs:273-290 | the backends store to a name alike, for every value, exactly when no scope holds it, or its innermost cell is ready and no scope on the chain has it as a constant |
| `Parity.SlotStoresAlike` | crates/yps-vm/src/compiler.rs:2064-2081 | the same read off the compiler's slots: a store to a slot not marked initialized is never alike, one to an initialized slot exactly without a constant of that name on the chain |
| `Parity.DeclarationsAlike` | crates/yps-interpreter/src/environment.rs:162-171 | the backends declare alike exactly unless a constant of the same scope becomes a variable |
| `Parity.TypeofAlike` | crates/yps-interpreter/src/interpreter/eval_expr.rs:124-141 | typeof of a name is alike exactly when some scope or the globals hold the name |
| `Parity.DeleteAlike` | crates/yps-interpreter/src/interpreter/delete.rs:60-60 | delete of a non-member is alike exactly when evaluating its operand neither fails nor changes anything |
| `Parity.OperatorsAlike` | crates/yps-interpreter/src/interpreter/call.rs:25-39 | two-operand operators are alike exactly unless the interpreter wants two numbers and does not get them |
| `Parity.ComplementsAlike` | crates/yps-interpreter/src/interpreter/eval_expr.rs:602-613 | bitwise not is alike exactly on numbers |
| `Parity.LiteralsAlike` | crates/yps-interpreter/src/interpreter/eval_expr.rs:449-456 | a number literal is alike exactly when it reads as a number |
| `Parity.PostfixAlike` | crates/yps-interpreter/src/interpreter/assign.rs:539-556 | increment and decrement are alike exactly when the name is missing, or is readable, holds a number and may be stored to alike |
| `Parity.BackendsAgree` | crates/yps-interpreter/src/interpreter/mod.rs:206-261 | a script run with no parting step ends on the interpreter and on compiled code with the same result, error and globals |
| `Parity.CompiledAsInterpreted` | crates/yps-vm/src/compiler.rs:118-141 | the code of a tidy script does what the interpreter does with the script on every run without a parting step |
| `Parity.HaltsIffInterpreted` | crates/yps-vm/src/compiler.rs:118-141 | the machine halts exactly for the scripts the interpreter comes to the end of, if no run parts |
| `Parity.PartedEnding` | crates/yps-interpreter/src/interpreter/mod.rs:206-261 | a backend that ends at the parting step ends there with that step's error and globals |
| `Parity.PartedForGood` | crates/yps-interpreter/src/interpreter/call.rs:25-39 | a run that parts at an operand, a literal or an increment only the interpreter rejects ends differently, whatever follows |
| `Partings.UndeclaredTypeofParts` | crates/yps-interpreter/src/interpreter/eval_expr.rs:124-141 | typeof of an undeclared name: a value on the interpreter, an error on compiled code |
| `Partings.EarlyStoreParts` | crates/yps-interpreter/src/environment.rs:273-290 | a store before the declaration of an inner variable: the interpreter changes the outer one, compiled code the inner one |
| `Partings.ShadowedConstParts` | crates/yps-interpreter/src/interpreter/assign.rs:558-566 | a store to a variable that shadows a constant: refused by the interpreter, done by compiled code |
| `Partings.PartedMayEndAlike` | crates/yps-interpreter/src/interpreter/eval_expr.rs:124-141 | a run may part and still end alike, so no condition on steps is necessary for equal endings |
| `EvenScripts.EvenNeverParts` | crates/yps-interpreter/src/interpreter/mod.rs:206-261 | no run of a script that keeps to a property of its text (no delete, typeof of a name, increments or unreadable numbers; arithmetic but plus on evident numbers; stores only to ready variables that are constant nowhere; no continue to a label without loop) comes to a step on which the backends part |
| `EvenScripts.EvenBackendsAgree` | crates/yps-interpreter/src/interpreter/mod.rs:206-261 | so the interpreter and compiled code give such a script the same result, error and globals on every run |
| `EvenScripts.EvenHaltsIffInterpreted` | crates/yps-vm/src/compiler.rs:118-141 | and the machine halts exactly for the tidy ones among them that the interpreter comes to the end of |
| `Captures.Resolver.FindLocal` | crates/yps-vm/src/compiler.rs:213-223 | finds the innermost slot of the name in one function |
| `Captures.Resolver.AddUpvalue` | crates/yps-vm/src/compiler.rs:226-234 | an equal descriptor is reused, a new one appended |
| `Captures.Resolver.ResolveUpvalue` | crates/yps-vm/src/compiler.rs:236-249 | computes the resolution function below: descriptors in every function between use and binding |
| `Captures.Resolver.ResolveName` | crates/yps-vm/src/compiler.rs:251-260 | local, then upvalue, then global, as the resolution function says |
| `Captures.UpvalueDenotesBinding` | crates/yps-vm/src/compiler.rs:236-249 | an upvalue that is found, chased outward, ends at the innermost enclosing function's innermost local of that name, marked captured; none is found exactly when no enclosing function has the name; descriptors stay valid and free of duplicates |
| `Captures.CapturesOnlyTheBinding` | crates/yps-vm/src/compiler.rs:236-249 | the only slot newly marked captured is the binding's |
| `Captures.ResolveTwice` | crates/yps-vm/src/compiler.rs:226-249 | resolving again finds the same upvalue and changes nothing |
| `Captures.ReferencesAreLexical` | crates/yps-vm/src/compiler.rs:251-260 | a reference is local, upvalue or global exactly as the lexical binding lies in this function, an enclosing one or none, and a local is constant as declared |
| `Captures.SlotsKeepTheirMeaning` | crates/yps-vm/src/compiler.rs:213-260 | whatever else is compiled, an upvalue slot keeps standing for the same local as long as its function is being compiled |
| `Captures.UpvalueIsTheBindingsCell` | crates/yps-vm/src/vm.rs:1079-1095 | if every closure of a chain took its upvalues from its maker as the descriptors say, an upvalue is the variable, at the time the closure inside it was made, of the very local it stands for |
| `UpvalueCells.Cells.CaptureUpvalue` | crates/yps-vm/src/vm.rs:2896-2907 | shares the open cell of the slot, or makes and lists one |
| `UpvalueCells.Cells.CloseUpvalues` | crates/yps-vm/src/vm.rs:2980-2997 | every listed cell at or above the slot takes its value along and leaves the list; the others stay open, in order |
| `UpvalueCells.Cells.GetUpvalue` | crates/yps-vm/src/vm.rs:463-470 | pushes the value the cell points at or holds |
| `UpvalueCells.Cells.SetUpvalue` | crates/yps-vm/src/vm.rs:471-485 | stores the top of the stack where the cell points, or in the cell |
| `UpvalueCells.Cells.DoClosure` | crates/yps-vm/src/vm.rs:1079-1095 | a new closure takes a cell for each descriptor: captured from a slot of the running frame, or its own |
| `UpvalueTies.StepMatches` | crates/yps-vm/src/vm.rs:455-493 | one step of the machine on shared, open and closed cells is the step of a form in which every slot is a variable and closures hold variables, for calls, returns, unwinding and per-iteration copies alike, if the step drops no captured slot unclosed |
| `UpvalueTies.CellsAreVariables` | crates/yps-vm/src/vm.rs:455-493 | hence after any such run from the start, whatever is captured, kept, called or reused, the stack shows what the simple form shows |
| `UpvalueTies.MadeNested` | crates/yps-vm/src/vm.rs:1079-1095 | making a closure and calling it extends a chain of frames in the way `UpvalueIsTheBindingsCell` asks |
| `UpvalueLaws.StoreIsSeen` | crates/yps-vm/src/vm.rs:455-485 | after a store to a local or an upvalue every place with that variable reads the value, and every other place reads as before |
| `UpvalueLaws.CallStartsOnArguments` | crates/yps-vm/src/vm.rs:1105-1136 | a call goes on with the callee's upvalues and a new variable for each parameter that holds its argument, undefined where there is none |
| `UpvalueLaws.ClosureHoldsVariables` | crates/yps-vm/src/vm.rs:1079-1095 | a closure holds the variables at the places its descriptors name |
| `UpvalueLaws.ReturnGoesBack` | crates/yps-vm/src/vm.rs:624-633 | a return goes back to the caller's frame and slots and puts the value in place of the callee |
| `UpvalueLaws.IterationStartsAnew` | crates/yps-vm/src/vm.rs:491-493 | closing from a slot upwards, as at the end of an iteration, starts new variables with the old values; closures keep the old ones |
| `UpvalueLaws.HandlerGoesBack` | crates/yps-vm/src/vm.rs:1036-1045 | an error goes back to the frame and slots of its handler, closing what it gives up, and is on top |
| `UpvalueLaws.CalleesStoreIsSeen` | crates/yps-vm/src/vm.rs:471-485 | what a callee stores in a captured variable is there after it returned, and no other variable has changed |
| `UpvalueExits.PopKeepsTie` | crates/yps-vm/src/vm.rs:2980-2997 | a slot may end unclosed, under any correspondence of cells and variables, exactly when no open cell points at it |
| `UpvalueExits.ExitsAreClean` | crates/yps-vm/src/compiler.rs:159-178 | the pops emitted for a range of slots are clean exactly when every captured one among them was marked by the time the code was emitted |
| `UpvalueExits.BrokenOutReads` | crates/yps-vm/src/compiler.rs:1401-1411 | a jump out of two loops compiled before the closure that captures: the slot ends with a plain pop, and the closure reads the next variable in that slot |
| `Heap.ReachFurther` | crates/yps-vm/src/gc.rs:113-266 | what a reachable cell refers to is reachable |
| `Heap.RefersToWhatItMentions` | crates/yps-vm/src/gc.rs:113-266 | the references reachability follows are exactly the addresses that stand in the places of a cell, for every kind of cell |
| `Marking.PushesTargets` | crates/yps-vm/src/gc.rs:163-266 | the work a visited cell pushes leads exactly to the cells it refers to, for every kind of cell |
| `Marking.ProcessKeeps` | crates/yps-vm/src/gc.rs:73-111 | processing one work item keeps the marking invariant |
| `Marking.ProcessShrinks` | crates/yps-vm/src/gc.rs:73-111 | processing one work item leaves fewer cells unmarked, or as many and lighter work |
| `Marking.MarkingDone` | crates/yps-vm/src/gc.rs:73-111 | with no work left, the marks are exact |
| `Collector.Marker.MarkValue` | crates/yps-vm/src/gc.rs:113-161 | does to marks and worklist what the specification of one value says |
| `Collector.Marker.ProcessItem` | crates/yps-vm/src/gc.rs:73-111 | does to marks and worklist what the specification of one item says |
| `Collector.Marker.Run` | crates/yps-vm/src/gc.rs:73-111 | marking stops, and the marked objects, arrays and upvalues are exactly those the pushed roots reach |
| `Collector.Marker.Sweep` | crates/yps-vm/src/gc.rs:268-311 | exactly the registered, allocated, unmarked cells are emptied; everything reachable is unchanged, whatever no longer holds itself up is freed, and the registries drop the entries that were dead before and keep every live one, in order; the count returned leaves out no garbage entry still there and counts nothing else |
| `Collector.Prune` | crates/yps-vm/src/gc.rs:38-42 | keeps exactly the entries whose cell is still there, in order |
| `Collector.Registry.LiveCount` | crates/yps-vm/src/gc.rs:33-36 | prunes the three registries and counts what is left |
| `Collector.CollectCycles` | crates/yps-vm/src/gc.rs:64-311 | one collection from the machine's values and open upvalues: mark, then sweep; nothing is cleared exactly when all registered cells were reachable, and the count lies between the garbage entries left and those found |
| `Sweeping.SameReachable` | crates/yps-vm/src/gc.rs:268-311 | the roots reach the same cells after the sweep, with the same contents |
| `Sweeping.CyclesBroken` | crates/yps-vm/src/gc.rs:268-311 | a garbage cycle left behind avoids every registered cell and was there before |
| `Sweeping.SweepIsComplete` | crates/yps-vm/src/gc.rs:268-311 | exactly the reachable cells remain if and only if every garbage cycle ran through a registered cell |
| `DebugSession.Adapter.Start` | crates/yps-dap/src/session.rs:287-304 | starts the debuggee once, with what launch stored |
| `DebugSession.Adapter.ResumeWith` | crates/yps-dap/src/session.rs:306-317 | forgets the stop, marks the session running and sends one command, or answers that no program is running |
| `DebugSession.Adapter.TerminateDebuggee` | crates/yps-dap/src/session.rs:319-330 | stores the flag, sends Terminate where there is a debuggee, and drops the deferred requests |
| `DebugSession.Adapter.HandleClient` | crates/yps-dap/src/session.rs:156-223 | defers a request that needs a stop while the program runs, and serves any other |
| `DebugSession.Adapter.HandleDebuggee` | crates/yps-dap/src/session.rs:119-154 | takes a stop or an exit and serves the deferred requests until one resumes the program |
| `DebugSession.Adapter.Handle` | crates/yps-dap/src/session.rs:107-117 | one event: new session, wire and messages are those of the specification |
| `DebugWorld.TurnIsSteps` | crates/yps-dap/src/session.rs:107-154 | one call of the session is one uninterrupted run of the adapter's steps in the interleaved model |
| `DebugWorld.Rendezvous` | crates/yps-dap/src/session.rs:119-154 | in every interleaving: at most one resume command in flight; stopped exactly while a stop is remembered, and then the debuggee waits on an empty channel; a debuggee waiting on an empty channel while the session runs has already reported its stop |
| `DebugWorld.ResumeReaches` | crates/yps-dap/src/session.rs:306-317 | a resume that finds the session stopped always reaches the debuggee |
| `DebugWorld.NeverStuck` | crates/yps-dap/src/lib.rs:51-58 | while the program runs and the client is silent the debuggee can always move |
| `DebugWorld.TerminateIsNeverLost` | crates/yps-dap/src/debuggee.rs:85-127 | once the flag is stored for good, at most one more statement begins, it stops, and the debuggee never works again |
| `DebugWorld.WaitingIsReleased` | crates/yps-dap/src/session.rs:319-330 | any debuggee still waiting when the session has ended has a command to take: Terminate, or the one resume sent before, after which the next statement it begins must stop and Terminate follows |
| `DebugWorld.DebuggeeEnds` | crates/yps-dap/src/session.rs:319-330 | once the session has ended the debuggee makes at most six more steps in any interleaving, and can always make one until it is gone |
| `DebugWorld.RequestsAreConserved` | crates/yps-dap/src/session.rs:148-165 | deferred requests are served each once in arrival order or dropped by termination; every served request is answered in order; message numbers have no gap |
| `DebugWorld.DeferredAreServedInOrder` | crates/yps-dap/src/session.rs:119-154 | the next deferred request is the oldest and is served while the program does not run |
| `DebugLaws.MoveIsSent` | crates/yps-dap/src/session.rs:193-199 | in every schedule: a continue, next, stepIn or stepOut that is taken while the program stands sends that very move, and the session runs |
| `DebugLaws.DeferredMoveIsSent` | crates/yps-dap/src/session.rs:148-154 | the same when the request was put off and comes out of the queue |
| `DebugLaws.NoMoveElsewhere` | crates/yps-dap/src/session.rs:306-309 | before the start and after the end nothing is sent and the client is told so |
| `DebugLaws.RunningPutsOff` | crates/yps-dap/src/session.rs:156-165 | while the program runs, pause, breakpoints and threads are served at once, a disconnect ends the session and everything else waits |
| `DebugLaws.PauseStops` | crates/yps-dap/src/session.rs:200-205 | a pause taken while the program runs stops it at the next statement that begins |
| `DebugLaws.SessionRemembers` | crates/yps-dap/src/session.rs:225-285 | program, entry stop and breakpoints are always those of the last launch and the last setBreakpoints served |
| `DebugLaws.StartsTheLaunched` | crates/yps-dap/src/session.rs:287-304 | the debuggee starts exactly when a configurationDone is served after a program was launched, with the program launched last |
| `DebugLaws.OnlyRequestsStart` | crates/yps-dap/src/session.rs:287-304 | no other step starts it |
| `DebugLaws.QueriesSeeTheStop` | crates/yps-dap/src/session.rs:190-192 | stackTrace, scopes and variables succeed exactly while the last notice of the debuggee is a stop not yet resumed |
| `DebugLaws.OthersSucceed` | crates/yps-dap/src/session.rs:167-223 | the other requests succeed, and unknown ones and launches without a program fail |
| `DebugLaws.EventsAreAnnounced` | crates/yps-dap/src/session.rs:119-147 | the events sent are exactly those the served requests and the notices call for, each as often |
| `Surface.EqIsSameStripped` | crates/yps-fmt/src/normalize.rs:243-269 | equality through brackets is equality of the trees without brackets |
| `Parser.Parser.ParseExpressionWithPrecedence` | crates/yps-parser/src/parser/expr.rs:47-106 | the precedence-climbing parser reads exactly what the reading function says, token position included |
| `Parser.Parser.ParsePrefix` | crates/yps-parser/src/parser/expr.rs:116-178 | the same for prefix operators and primaries |
| `Reader.ReadsBack` | crates/yps-parser/src/parser/expr.rs:47-106 | a tree that fits its place is read back whole and the reader goes on with what follows |
| `Reader.Unambiguous` | crates/yps-parser/src/precedence.rs:3-69 | under the precedence table, fitting trees with the same tokens are the same tree |
| `Brackets.ReadsFitting` | crates/yps-parser/src/parser/expr.rs:47-178 | the reader reads fitting trees only, loses no token and stops where nothing carries the expression on |
| `ReadingLaws.TighterTakes` | crates/yps-parser/src/precedence.rs:10-70 | of two operators from neighbouring rows of the table, named one by one, the tighter takes the operand between them; pipelines lie between relations and shifts |
| `ReadingLaws.SidesTake` | crates/yps-parser/src/precedence.rs:3-8 | of two operators of one row the left one takes it, but for assignments and powers |
| `ReadingLaws.PrefixTakes` | crates/yps-parser/src/parser/expr.rs:116-178 | prefix operators take their operand before any operator between two does, and postfix ones before that |
| `ReadingLaws.ConditionalTakes` | crates/yps-parser/src/parser/expr.rs:47-106 | the conditional is looser than all operators but assignments, and nests to the right |
| `FmtPrinter.PrintExpr` | crates/yps-fmt/src/printer.rs:712-787 | the printer appends exactly the specified tokens |
| `FmtPrinter.RoundTrip` | crates/yps-fmt/src/printer.rs:712-787 | what is printed reads back whole, and as an equal expression exactly for faithful ones: no assignment node, no postfix on a bare operator |
| `FmtPrinter.SameTokens` | crates/yps-fmt/src/printer.rs:712-787 | faithful expressions print the same tokens exactly if they are equal through brackets |
| `FmtPrinter.FormatsOnce` | crates/yps-fmt/src/printer.rs:712-787 | formatting the formatted text changes nothing |
| `FmtPrinter.PostfixOnProduct` | crates/yps-fmt/src/printer.rs:712-787 | an increment of a bracketed product prints without the brackets and reads as another expression |
| `Brackets.FewestBrackets` | crates/yps-fmt/src/printer.rs:712-787 | every text that reads as a faithful expression is at least as long as the printed one but for a pair around each postfix operator inside a tighter operator, and some text is exactly that much shorter |
| `Brackets.ShortestIff` | crates/yps-fmt/src/printer.rs:732-744 | so the printed text is the shortest exactly for expressions without such a postfix operator |
| `JsGrammar.NoTwoDerivations` | crates/yps-jsgen/src/printer.rs:809-838 | under the productions of ECMA-262, sections 13.4 to 13.15, with their operators named one by one, no token sequence has two derivations |
| `JsPrinter.PrintExpr` | crates/yps-jsgen/src/printer.rs:663-707 | the printer appends exactly the specified tokens |
| `JsPrinter.PrintsJavaScript` | crates/yps-jsgen/src/printer.rs:663-707 | what is printed is derivable JavaScript with the source's tree exactly when every assignment, increment and decrement target is a name |
| `JsPrinter.NoOtherMeaning` | crates/yps-jsgen/src/printer.rs:809-838 | JavaScript gives the printed tokens no other tree than the source's |
| `JsPrinter.ConditionalTarget` | crates/yps-jsgen/src/printer.rs:1154-1171 | an assignment to a bracketed conditional prints as another expression |
| `JsBrackets.FewestBrackets` | crates/yps-jsgen/src/printer.rs:663-707 | every JavaScript text of the expression is at least as long as the printed one but for a pair around each such postfix operator and each assignment after the colon of a conditional, and some text is exactly that much shorter |
| `JsBrackets.ShortestIff` | crates/yps-jsgen/src/printer.rs:663-707 | so the printed text is the shortest exactly for expressions with neither |
| `SourceMap.EncodeVlq` | crates/yps-fmt/src/sourcemap.rs:3-17 | the encoding loop computes the specified code of any 64-bit integer but the least |
| `SourceMap.NoOverflow` | crates/yps-fmt/src/sourcemap.rs:3-17 | for those integers the shifted magnitude fits 64 bits and gives the number back |
| `SourceMap.VlqRoundTrip` | crates/yps-fmt/src/sourcemap.rs:3-17 | decoding a code gives the number and leaves what follows |
| `SourceMap.VlqIsPrefixFree` | crates/yps-fmt/src/sourcemap.rs:3-17 | no number's code is a prefix of another's |
| `SourceMap.VlqIsShortest` | crates/yps-fmt/src/sourcemap.rs:3-17 | no other text that is read as the number is shorter than its code |
| `SourceMap.KnownCodes` | crates/yps-fmt/src/sourcemap.rs:3-17 | the codes of eight numbers in letters |
| `SourceMap.EncodeMappings` | crates/yps-fmt/src/sourcemap.rs:90-131 | the encoder computes the specified text, running deltas and resets included |
| `SourceMap.DecodesGrouped` | crates/yps-fmt/src/sourcemap.rs:90-131 | decoding the encoded list gives the mappings grouped by generated line |
| `SourceMap.GroupedIsStableSort` | crates/yps-fmt/src/sourcemap.rs:90-131 | grouping sorts by generated line and keeps each line's mappings in their order |
| `SourceMap.SortedRoundTrip` | crates/yps-fmt/src/sourcemap.rs:90-131 | a list sorted by generated line comes back identical |
| `SourceMap.EncodedIsShortest` | crates/yps-fmt/src/sourcemap.rs:90-131 | no text that decodes to the grouped mappings is shorter than the encoded one |
| `Scripts.Resolve` | crates/yps-interpreter/src/resolver.rs:23-40 | the walk with its scope stack finds exactly the read offsets whose name no enclosing scope declares |
| `FreeNames.ResolvesFreeNames` | crates/yps-interpreter/src/resolver.rs:23-319 | what is found from the outside in, with a stack of scopes, is what the free identifiers are from the inside out |
| `Scripts.Resolver.RecordRead` | crates/yps-interpreter/src/resolver.rs:41-46 | records the offset exactly when no scope on the stack declares the name |
| `Scripts.Resolver.WalkFunction` | crates/yps-interpreter/src/resolver.rs:48-70 | walks parameters and body inside one scope of the function's own name, parameters and body locals |
| `Scripts.Resolver.WalkBlock` | crates/yps-interpreter/src/resolver.rs:100-108 | walks a block inside a scope of its locals |
| `Scripts.Resolver.WalkStmt` | crates/yps-interpreter/src/resolver.rs:110-219 | records, for the statements modelled, exactly the offsets of reads whose name no scope around them declares |
| `Scripts.Resolver.WalkExpr` | crates/yps-interpreter/src/resolver.rs:254-319 | the same for the expressions modelled |
| `Environments.Environment.Push` | crates/yps-interpreter/src/environment.rs:116-126 | a new innermost frame with nothing bound |
| `Environments.Environment.Fork` | crates/yps-interpreter/src/environment.rs:135-148 | a copy of the bindings and marks of the current frame under the same parent |
| `Environments.Environment.DefineHere` | crates/yps-interpreter/src/environment.rs:162-171 | binds the name in the current frame and clears its mark |
| `Environments.Environment.ReadVariable` | crates/yps-interpreter/src/environment.rs:182-200 | walks the chain and answers found, not yet initialized or missing as the lookup function does |
| `Environments.Environment.SetVariable` | crates/yps-interpreter/src/environment.rs:273-290 | rebinds the innermost binding, or reports there is none |
| `EnvironmentLaws.StoreIsRead` | crates/yps-interpreter/src/environment.rs:273-290 | an assignment changes the innermost variable of the name: the name reads as the value unless a nearer frame holds it back, and every other name and frame reads as before |
| `EnvironmentLaws.StoreFails` | crates/yps-interpreter/src/environment.rs:273-290 | it fails exactly when no frame around binds the name |
| `EnvironmentLaws.DeclarationIsRead` | crates/yps-interpreter/src/environment.rs:162-171 | a declared name reads as the value at once; everything else reads as before |
| `EnvironmentLaws.MarkIsRead` | crates/yps-interpreter/src/environment.rs:173-180 | marked names that the frame does not bind are unreadable; everything else reads as before |
| `EnvironmentLaws.ScopeIsRead` | crates/yps-interpreter/src/environment.rs:116-133 | entering a scope changes no read, and what is declared inside is gone behind it |
| `EnvironmentLaws.CopyIsRead` | crates/yps-interpreter/src/environment.rs:135-148 | a copied frame reads as the original, and stores to the copy do not show in the original |
| `RunLaws.AssignedIsRead` | crates/yps-interpreter/src/interpreter/assign.rs:558-566 | in a running script an assigned name reads as the value from then on |
| `RunLaws.UnboundIsRefused` | crates/yps-interpreter/src/interpreter/assign.rs:558-566 | an assignment to a name that no frame around binds fails and changes nothing |
| `RunLaws.DeclaredIsRead` | crates/yps-interpreter/src/interpreter/exec_stmt.rs:25-29 | so does a declared one, wherever the read stands, and no other name changes |
| `RunLaws.HoistedIsRead` | crates/yps-interpreter/src/interpreter/exec_stmt.rs:388-402 | before a list runs each function it declares can be read, the last of each name |
| `RunLaws.CallerIsNotSeen` | crates/yps-interpreter/src/interpreter/call.rs:129-160 | what a call does depends on where the function was made and not on where it is called from |
| `RunLaws.ClosureReadsItsScope` | crates/yps-interpreter/src/interpreter/call.rs:129-160 | a function that gives back a name reads it where it was made |
| `RunLaws.FunctionKnowsItself` | crates/yps-interpreter/src/interpreter/eval_expr.rs:334-348 | a function expression's own name is the function, inside it and nowhere else |
| `RunLaws.ParametersHoldArguments` | crates/yps-interpreter/src/interpreter/call.rs:369-397 | plain parameters hold their arguments, undefined where there is none |
| `RunLaws.ArgumentComesBack` | crates/yps-interpreter/src/interpreter/call.rs:114-160 | a function that gives back its i-th parameter gives back the i-th argument; with too few arguments the call fails |
| `RunLaws.UpdateLeavesIterationAlone` | crates/yps-interpreter/src/interpreter/exec_stmt.rs:63-95 | the update of a for stores to a copy: what was made in the iteration before reads the variables as they were |
| `RunLaws.ItemIsBoundApart` | crates/yps-interpreter/src/interpreter/exec_stmt.rs:129-166 | each item is bound in a copy of the frame: the body sees it and the frame before does not |
| `RunLaws.CaughtIsRead` | crates/yps-interpreter/src/interpreter/exec_stmt.rs:206-251 | a handler that gives back the caught name gives back what was thrown or raised |
| `RunLaws.FinalizerOverrides` | crates/yps-interpreter/src/interpreter/exec_stmt.rs:206-251 | a finalizer that gives back a name overrides whatever went before |
| `RunLaws.EmptyFinalizerChangesNothing` | crates/yps-interpreter/src/interpreter/exec_stmt.rs:206-251 | an empty finalizer changes neither outcome nor reads |
| `RunLaws.ConditionsChoose` | crates/yps-interpreter/src/interpreter/exec_stmt.rs:36-45 | conditions take undefined and zero for false and everything else for true |
| `RunLaws.LoopsStop` | crates/yps-interpreter/src/interpreter/exec_stmt.rs:46-62 | a loop stops where its condition is false, and a break leaves it |
| `RootReads.RootAnswers` | crates/yps-interpreter/src/environment.rs:182-200 | a name no static scope around a frame declares is answered past every frame but the root |
| `RootReads.RecordedReadsAgree` | crates/yps-interpreter/src/interpreter/mod.rs:136-148 | at a recorded offset the chain answers as the root alone, so the fast lookup is the slow one |
| `RootReads.FastRunsLikeSlow` | crates/yps-interpreter/src/interpreter/mod.rs:136-148 | a whole script run, closures, captured and forked frames included, is the same with recorded reads going to the root, unless on that run a handler or finalizer begins in a frame deeper than its try |
| `TryFrames.GuardedNeverLeaks` | crates/yps-interpreter/src/interpreter/exec_stmt.rs:206-251 | no run of a guarded script does that: its tried blocks (and handlers before a finalizer) hold, outside inner functions, no for loop and no call unless all parameters of the script are plain names |
| `TryFrames.GuardedRunsFast` | crates/yps-interpreter/src/interpreter/mod.rs:136-148 | so for a guarded script, with no condition on the run, recorded reads that go to the root are never observed |
| `Leaks.QuietStays` | crates/yps-interpreter/src/interpreter/exec_stmt.rs:63-95 | code without a for loop of its own, and without calls that might fail in binding, leaves the current frame as it was, also by an error |
| `Leaks.ForMoves` | crates/yps-interpreter/src/interpreter/exec_stmt.rs:63-95 | a for loop of such code leaves another frame current exactly when it fails |
| `Leaks.ForEachMoves` | crates/yps-interpreter/src/interpreter/exec_stmt.rs:129-166 | a loop over items with a plain variable does exactly when its body fails, not when its iterable does |
| `Leaks.CallMoves` | crates/yps-interpreter/src/interpreter/call.rs:114-139 | a call with enough arguments leaves another frame current exactly when binding the parameters fails, whatever the function and the arguments |
| `Leaks.HandlersApart` | crates/yps-interpreter/src/interpreter/exec_stmt.rs:206-251 | after any tried block that fails, a recorded read in the handler is observed exactly when the root binds the name and the chain of the frame the error arose in shows something else |
| `Leaks.TryLeaks` | crates/yps-interpreter/src/interpreter/exec_stmt.rs:63-95 | for any name, offset and two values: an error leaving a for loop inside try makes the recorded read give the one and the chain the other |

## Left out

Contracts that say less than one might wish:

- ScriptRuns: asks for `TidyList`, because the machine underflows on some untidy scripts (`BareDeclarationUnderflows`); no
  converse is stated, because whether an untidy script goes wrong depends on how often its bare declarations run.
- BackendsAgree: is one way, because a run that parts may end alike (`PartedMayEndAlike`).
- HaltsIffInterpreted: asks that no run from these globals parts, for the same reason.
- FastRunsLikeSlow: says nothing of runs in which a `try` goes on in a frame deeper than its own. On some of them reads
  differ (`TryLeaks`), on others not: the handler may read no recorded name, or one that both frames show alike
  (`HandlersApart`).
- GuardedRunsFast: is one way. An unguarded script is observed only if a loop or call it tries is reached and fails, which
  depends on the closures that flow there and on its input, and if its handler then reads a name that the frames show
  differently; those are questions about runs and not about the text. `ForMoves`, `CallMoves` and `HandlersApart` answer
  them exactly, one step at a time.
- ForEachMoves: asks for a plain loop variable; with a pattern, a failing binding pops the loop's frame (`BindingLeft`).
- EvenBackendsAgree: is one way, for the reason given at `BackendsAgree`.
- CellsAreVariables: asks that no step drops a captured slot unclosed. Compiled code keeps to it at the end of scopes, where
  all marks are known; at a jump it need not (`BrokenOutReads`).
- WalkStmt: leaves out labels, `switch`, classes, `using`, imports and exports.
- WalkExpr: leaves out object literals, classes, templates with their parts and dynamic imports, apart from constructs that
  evaluate operands in order, which are all one here.
- Resolve: leaves out the flag that imports set and that empties the result.
- Fork: leaves out constants and disposables, which the source copies too.
- DefineHere: leaves out the constant mark.
- PrintsJavaScript: leaves out the pipeline operator, which the printer turns into a call.
- NoOtherMeaning: leaves it out likewise.
- EncodeVlq: leaves out the least 64-bit integer, whose magnitude does not fit the source's arithmetic.

Compiled scripts and backend parity:

- Functions, closures inside the evaluator, objects, arrays, templates, classes, `try`, `for-in`, `for-of`, generators,
  `using`, imports, exports and destructuring patterns: the compiled fragment is primitive values, variables, operators,
  blocks, `if`, the three loops, `switch`, labels, `return` and `throw`.
- `instanceof`, `in` and the pipeline operator: the first two compile, but need objects; the model refuses all three.
- Bare declarations below a local scope, apart from the finding above.
- Slot, constant and argument indices are unbounded; the source truncates them to 32 or 16 bits.
- Source spans, inline caches, disassembly and the wording of error messages.
- The builtin functions and namespaces that a missing global falls back to (crates/yps-vm/src/vm.rs:434-437).
- The value of a `return` at the top of a script, which the interpreter drops and the machine hands on.
- Microtasks, the debug hook and garbage collection between the interpreter's statements.

Upvalues:

- Captured variables are not checked for being constant or initialized, as in the source.
- Everything values are kept in besides stack and cells is one list; generators, which carry their part of the stack and of
  the open cells away; rest parameters; the depth limit of calls.

Garbage collection:

- Reference counting is the release of cells nothing holds; counts, destructors and the reuse of addresses are not
  modelled. Builtins, host values and regular expressions refer to no cell, as in the marker.

Debug adapter:

- JSON framing, message bodies, breakpoints' line resolution, reading the program's file, stop reasons beyond their name.
- A `configurationDone` before `launch`.

Printers:

- Calls, members, indexing, `new`, functions, templates and other operands that need no table; statements; layout, comments
  and the gluing of adjacent signs; the spelling of literals and the renaming of identifiers; the parser's depth limits and
  error recovery; the pipeline in JavaScript output.

Source maps and root reads:

- JSON text, byte offsets to lines and columns, a generated line of 2^32 - 1, and `vlq_encode` of the least 64-bit integer.
- Classes, object literals, generators, async functions, `switch`, labels, constants and host callbacks in the root-read
  evaluator; scripts with imports, which switch the resolution off.

Not modelled at all: renaming, the lexer, position maps, semantic tokens, and the pruning of the frame registry.
