# Opo: compiler, virtual machine, maps, channels, reference counts and JSON

Opo is a small statically typed language. A one-pass compiler emits byte code for a stack machine; values
live in reference-counted objects; threads talk over channels; JSON is printed and parsed by built-in
functions. This project models five parts of it in Dafny and proves what each of them is for. The comments
of each file say which functions of the C sources it follows; paths and lines are in the table below.

**1. Compiler and machine** preserve meaning, and what the compiler accepts is safe (`Bytes` to `JumpTargets`). A
big-step semantics over named variables (`Semantics`), the code of each construct as a tree with symbolic
calls and breaks (`CodeGen`), the byte machine (`Machine`), and the compiler itself on tokens, twice: as
functions on its state (`Parsing`) and in place on its buffers, tables and type stack (`Compiler`, `Chunk`).
The chain of results:

- `Correctness.CompilerAndMachineAreCorrect`: for every well-typed program that never opens a seventeenth
  handler, printed as tokens, the compiler succeeds and `vm_run` on its bytes stops with a result and an
  output if and only if the program does. Division errors, uncaught errors, operand stack and frame overflow
  are results like any other. `Correctness.DivergenceFromTokens`: it goes on for ever if and only if the
  program does. `Correctness.CorrectByText` has a condition on the text of the program alone: a bound of
  sixteen on the try blocks that its functions nest, calls included.
- At a seventeenth open handler OP_TRY raises an error and then pushes the handler all the same. The meaning
  of a program knows no such limit (`Semantics.RunProgram`). On a machine without it the output of the
  compiler does what every program means (`Correctness.CompilerIsCorrect`), and `vm_run` stays in step with
  that machine if and only if no seventeenth handler is opened (`Correctness.TogetherIffEnoughHandlers`).
  `Nested.SeventeenthHandlerBreaks`: seventeen try blocks around a print of 100, in which nothing fails, make
  `vm_run` print 1002.
- `JumpTargets.JumpPatchingIsComplete`: the output of the compiler is a list of instructions whose jumps and
  handler addresses all go to instructions of their own function, and whose calls go to function entries.
- `AcceptedPrograms.WellTypedIffAccepted`: the compiler does not check everything. Among the programs that
  obey the rules it leaves to the programmer (`Acceptance.FitProgram`: order is asked of ints and equality of
  ints and bools, void calls are no values, no variable is declared again at another type or read before it
  is assigned, no try body is left by a jump, a handler declares nothing and its error variable hides
  nothing, sizes are within limits) it accepts exactly the well-typed ones, so that accepted programs never meet a type error (`AcceptedProgramsAreSafe`, `AcceptedCodeIsSafe`).
  `Mixed.OrderRuleIsNeeded` runs `true < false`, which the compiler accepts, into a type error;
  `Acceptance.CatchScope` shows what a handler that declares a local does to the scope.
- `Forward.CompilesIffFewForwardCalls`: the compiler records at most 64 calls of a function that is defined
  later, and drops the rest without an error. Its bytes are those of the program if and only if no function
  exceeds that limit; `Crowded` has a program that does, whose 65th call goes to address -1.
- `Pratt.ExpressionFollowsGrammar`: on every sentence of a grammar in eight layers, each a left-associated list of
  the next with its symbols written out (`Grammar`), the compiler emits the code of the tree that the grammar
  gives it, so that `1 + 2 * 3` is the sum of 1 and a product. `Operators` says what each operator computes, in
  plain integers and truth values, for the instructions and for expressions.
- `Isolation` and `Unwinding` hold for any code: frames are isolated, and a throw restores its try point.
- `InstructionSet` has all 54 opcodes with the operands that `vm_run` reads for each, and their round trips.

The programs are those of ints and bools with locals, assignment, print, conditionals, loops with break and
continue, direct and mutually recursive calls, return, throw and try. `Syntax.OkProgram` is the typing
discipline. Bodies of one-armed conditionals and loops are void, because the compiler drops their type
without popping their value. Where the code does less than it seems to, the semantics follows the code:
`&&` and `||` evaluate both operands, and the locals of a function are one flat scope.

**2. The hash map** (`HashMap`) refines a finite map in place: linear probing, doubling at load 0.7, deletion
by backward shift. The invariant is that every entry is reachable from its home slot over used slots. String
keys hold no zero byte: `HashMap.OnlyCTextsAgree` and `EmptyAndCharZero` say why.

**3. Channels** (`Ring`, `Channel`, `HandOff`) as a protocol of critical sections. A condition variable is
the set of sleeping and the set of awakened threads; a signal may wake any non-empty set of sleepers, and
sleepers may wake for no reason, as IEEE Std 1003.1 allows for `pthread_cond_signal` and
`pthread_cond_wait`. Results hold for every number of threads and every interleaving: what is delivered are
the values given to the sends that were accepted, in that order (`Buffered.ChannelIsFirstInFirstOut`,
`HandOff.HandOffIsExactlyOnce`). Unbuffered senders
share one condition variable with single signals: `HandOff.SendersAreSafeIffAlone` says that exactly runs
with at most one sender at a time never leave one asleep for nothing.

**4. Reference counts, closures and elements** (`Counting` to `Captures`, `Elements`): counts equal the number of owners after every instruction, through
cascading frees, unwinding and map updates, along every sequence of instructions. OP_THROW retains the error
once too often; `Accounting.ExactIffNoObjectThrown` says that this is the only inexactness. On the same machine
`Captures` has frame isolation with closures: along every run a closure keeps its captures until it is
freed, every invocation starts from the values captured when it was made, and no callee writes to the slots
of its callers. `Elements` says which values come out of strings, arrays, maps, locals and handlers: what was
put in is what is found, through every holder of the object, and nothing else changes.

**5. JSON** (`Doubles`, `Json`, `JsonText`): printing and parsing undo each other on exactly the values whose
strings hold no quote and no zero byte and whose ints a double can hold (section 7 of RFC 8259 escapes
strings, the printer and the parser do not). Between tokens the parser takes any white space
(`Json.SpacedTextIsRead`). What `strtod` does is a parameter with stated assumptions.

## Model

| member | source | states |
|---|---|---|
| Bytes.ReadBack32 | src/compiler.c:240-245 | `read_int32` gives back every 32-bit number that `emit_int32` wrote, over the whole signed range and wherever it stands |
| Bytes.ReadBack64 | src/compiler.c:246-252 | `read_int64` gives back every 64-bit number that `emit_int` wrote |
| Bytes.LittleEndianSigned | src/vm.c:1610-1624 | every operand of k bytes is the little-endian form of the number it is read as: reading and writing are inverse both ways |
| Bytes.PatchMiddle | src/compiler.c:234-239 | `patch_int32` replaces exactly its four bytes |
| Values.QuotientRemainder | src/vm.c:1817-1841 | quotient and remainder of the VM fit the dividend, and the remainder takes its sign |
| Values.QuotientFits | src/vm.c:1817-1841 | the quotient fits 64 bits unless INT64_MIN is divided by -1 |
| Operators.IntArithmetic | src/vm.c:1760-1816 | OP_ADD, OP_SUB and OP_MUL on two ints leave the 64-bit number that differs from the exact sum, difference or product by a multiple of 2^64 |
| Operators.IntDivision | src/vm.c:1707-1724 | OP_DIV and OP_MOD leave a quotient and a remainder with a = b * q + r, the remainder smaller than the divisor and of the sign of the dividend; a zero divisor raises its error, INT64_MIN by -1 has no quotient |
| Operators.WrapsToOne | src/vm.c:1760-1816 | a result within a multiple of 2^64 is one number only |
| Operators.DividesOnce | src/vm.c:1817-1841 | the identity of division admits one quotient and one remainder |
| Operators.IntComparison | src/vm.c:1663-1692 | OP_LT, OP_GT, OP_LTE and OP_GTE leave true exactly when the numbers are in that order |
| Operators.Equality | src/vm.c:1842-1848 | OP_EQ leaves true exactly for equal numbers, equal truth values or equal error texts, never across kinds and never for void |
| Operators.Logic | src/vm.c:1725-1744 | OP_AND, OP_OR and OP_NOT have their truth tables |
| Operators.Negation | src/vm.c:1693-1706 | OP_NEG leaves the negated number modulo 2^64 |
| Operators.KindsMustBeInt | src/vm.c:1663-1863 | any other operands raise the type error of the instruction |
| Operators.ConditionJumps | src/vm.c:2155-2163 | a tested condition jumps exactly on false and on void |
| Operators.IntExpressions | src/vm.c:1760-1816 | what a + b, a - b and a * b mean in a program, in plain integers modulo 2^64 |
| Operators.DivisionExpressions | src/vm.c:1817-1841 | what a / b and a % b mean in a program |
| Operators.OrderExpressions | src/vm.c:1849-1863 | what the four order comparisons mean in a program |
| Operators.EqualityExpressions | src/vm.c:1842-1848 | what == and != mean in a program, on all values |
| Operators.LogicExpressions | src/vm.c:1725-1738 | what && and || mean in a program |
| Operators.PrefixExpressions | src/vm.c:1693-1706 | what unary minus and ! mean in a program |
| Operators.ConditionDecides | src/vm.c:2155-2163 | which arm an if takes and when a loop ends, for every value of the condition |
| InstructionSet.DecodeEncode | src/vm.c:1610-1655 | for every one of the 52 opcodes that `vm_run` has a case for, decoding an encoded instruction in front of anything gives back the instruction, operand by operand, and what follows |
| InstructionSet.RoundTrip | src/vm.c:1626-2361 | disassembling the bytes of any list of instructions, of all opcodes and operand widths, gives the list back |
| InstructionSet.DisassembledAssembles | src/vm.c:1626-2361 | and bytes that disassemble are the bytes of the list they give: the encoding is one to one |
| InstructionSet.PatchChangesOneOperand | src/compiler.c:234-239 | `patch_int32` on the first operand of instruction k of any list gives the bytes of the same list with that one operand changed |
| InstructionSet.SameBytes | src/compiler.c:221-252 | the instructions of the compiled programs of part 1 have the same bytes in both encodings |
| Soundness.WellTypedPrograms | src/vm.c:1626-2037 | a program that meets the static rules never reaches a type error, an unassigned local, a missing operand or a wrong union member, along every run |
| Soundness.SoundExpr | src/vm.c:1626-1863 | an expression that meets the static rules yields a value of its static type, or raises or stops for a reason that types do not exclude |
| Soundness.SoundStmt | src/compiler.c:2240-2580 | a statement keeps every local at its static type on every way out: end, break, continue, return, throw |
| Soundness.SoundTurn | src/compiler.c:2526-2576 | a loop turn keeps the locals typed, through break and continue |
| Soundness.SoundTry | src/compiler.c:2445-2477 | a handler starts with the locals of the try block still typed |
| CodeGen.PatchingFills | src/compiler.c:1924-1948 | patching all sites of one kind afterwards gives the bytes emitted with the target known from the start and touches nothing else |
| CodeGen.SameTargets | src/compiler.c:295-302 | the bytes of a code tree depend only on the addresses of its callees |
| Runs.RaiseIsCaught | src/vm.c:1579-1608 | a raised error is caught by the innermost handler: stack cut to its height plus the error, frames cut, caller slots untouched; or the run stops uncaught |
| Simulation.SimExpr | src/vm.c:1626-1863 | the postfix code of an expression, on any stack, pushes exactly the value of the semantics, or raises, stops or goes on as it says |
| Simulation.SimArgs | src/compiler.c:554-609 | argument code leaves the values in order on the stack |
| Simulation.SimStores | src/compiler.c:486-490 | the parameter stores take the arguments off the stack into the slots of the new frame |
| Simulation.SimInvoke | src/vm.c:1900-1915 | a call enters a fresh frame, runs the body and returns with one value more, the slots of the caller unchanged; or overflows the frames exactly when the semantics says |
| Simulation.SimStmt | src/compiler.c:2240-2580 | the code of every statement simulates it: same locals, output and value, one static stack depth at the end, and break, continue, return and throw leave as the semantics says |
| Simulation.SimIfElse | src/compiler.c:2480-2525 | both arms of a conditional meet at the same address with the same stack depth |
| Simulation.SimWhile | src/compiler.c:2526-2576 | a loop simulates any number of turns: break lands just past it, continue on its condition |
| Simulation.SimTry | src/vm.c:2006-2037 | a try block pushes and drops its handler; an error thrown at any call depth inside it resumes at the handler with the stack and frames of the block |
| Simulation.SimBlock | src/compiler.c:2036-2051 | a block discards the value of every statement but the last |
| EndToEnd.ProgramIsLoaded | src/compiler.c:2070-2186 | every function of the program lies at its entry, with the jump over it |
| EndToEnd.CompiledCodeIsCorrect | src/vm.c:1626-2037 | the machine stops on the compiled program with a result and an output if and only if the program does, with the limit on handlers and without |
| EndToEnd.VmDiverges | src/vm.c:1626-2361 | `vm_run` goes on for ever on a compiled program that never opens a seventeenth handler if and only if the program does |
| EndToEnd.CompiledCodeIsSafe | src/vm.c:1571-1576 | on compiled code no run underflows the operand stack, misses a frame, meets a type error or leaves the code |
| EndToEnd.RunsAgree | src/vm.c:2006-2011 | until the handler stack is full, `vm_run` and the checked machine take the same turns |
| EndToEnd.HandlersRunOut | src/vm.c:2006-2011 | a program that nests seventeen handlers at run time reaches an OP_TRY with 16 handlers open, its output so far intact |
| EndToEnd.LimitChangesNothing | src/vm.c:2006-2011 | a program that never opens a seventeenth handler ends with the same results and outputs with and without the limit |
| EndToEnd.TogetherIffEnough | src/vm.c:2006-2011 | `vm_run` goes through the states of a machine whose handler stack has no bound if and only if the program never opens a seventeenth handler |
| Handlers.FreeVmIsCorrect | src/vm.c:2006-2011 | on that machine every compiled program stops with exactly the results and outputs that it means |
| Handlers.FewTriesAreEnough | src/vm.c:2006-2011 | a bound for each function on the try blocks that it nests, calls included, of at most 16 for main, shows that it never does |
| Emission.EmitCat | src/compiler.c:221-252 | emitting one code tree after the other emits their concatenation, with all pending patches |
| Emission.PatchEmitted | src/compiler.c:234-239 | back-patching a jump after more code gives the output with the target in place from the start |
| Emission.LoopEmitted | src/compiler.c:2526-2576 | when a loop ends, every break of its own body, and no other, is patched to just past it |
| Emission.EmitCallIs | src/compiler.c:295-302 | a call emits the known address or -1 and records at most 64 patches |
| Grammar.PrintedIsDerived | src/compiler.c:1010-1022 | printing with minimal parentheses writes a sentence of the layered grammar (or, and, equality, comparison, sum, product, sign, primary) whose tree is the printed expression |
| Pratt.ExpressionFollowsGrammar | src/compiler.c:1979-1983 | on every sentence of the layered grammar, with any parentheses, up to a token that no rule has or the end of the line, `expression` consumes exactly its tokens and emits the code of the tree the grammar gives it |
| Pratt.TighterTakesTheRight | src/compiler.c:1979-1992 | a op1 b op2 c with op2 of a tighter layer emits the code of a op1 (b op2 c), for every two layers and all primaries |
| Pratt.TighterOrFirstTakesTheLeft | src/compiler.c:1979-1992 | a op1 b op2 c with op1 of a tighter or of the same layer emits the code of (a op1 b) op2 c |
| Pratt.ParsePhrase | src/compiler.c:2018-2032 | `parse_precedence` on a member of any layer consumes exactly its tokens and goes on with what follows it |
| Pratt.ParseJoined | src/compiler.c:1040-1126 | symbols of one layer associate to the left because the right operand is parsed one level higher |
| Pratt.ParsePhrases | src/compiler.c:554-609 | argument lists are consumed up to the closing parenthesis and their types counted |
| Pratt.ParseExpr | src/compiler.c:2018-2032 | so `parse_precedence` on an expression printed at any level consumes exactly its tokens and emits exactly its postfix code and type |
| Pratt.PrintEndsAtNewLine | src/compiler.c:191-214 | a print statement ends at the end of its line, whatever token the next line starts with |
| Pratt.JumpsEndAtNewLine | src/compiler.c:191-214 | so do break and continue |
| Shapes.IfElseEmitted | src/compiler.c:2480-2525 | the two placeholders of a conditional are patched to the else arm and to the end |
| Shapes.WhileEmitted | src/compiler.c:2526-2576 | the exit and the back jump of a loop and the breaks of its body all get their targets |
| Shapes.TryEmitted | src/compiler.c:2445-2477 | the handler address and the jump over the handler are patched |
| Statements.ParseStmt | src/compiler.c:2240-2580 | `statement` on a printed statement consumes its tokens, emits exactly its code and leaves scope and type stack as the typing rules say |
| Statements.ParseBlock | src/compiler.c:2036-2051 | so does `block` on a printed block, popping between statements exactly the non-void types |
| Compilation.PredeclareFrom | src/compiler.c:304-422 | the first pass enters every function, skipping balanced brackets |
| Compilation.DefinePatches | src/compiler.c:470-475 | a definition patches the recorded calls of its function to its entry |
| Compilation.ParseFunction | src/compiler.c:423-535 | `parse_function` emits the jump, the stores, the body and the return, and patches the jump |
| Compilation.CompileEmits | src/compiler.c:2582-2682 | compiling the printed tokens of any well-typed program succeeds, with exactly the bytes that recording at most 64 calls per function gives |
| Forward.CompilePrinted | src/compiler.c:2582-2682 | within 64 calls before each definition these are exactly the bytes of the code tree, every call holding the entry of its callee |
| Forward.ForwardCallIsLost | src/compiler.c:295-302 | the operand of the 65th call before a definition holds -1 in the compiled bytes, where the code tree has the entry of the callee |
| Forward.CompilesIffFewForwardCalls | src/compiler.c:295-302 | compiled bytes and code tree agree if and only if no function is called more than 64 times before its definition |
| Crowded.CrowdedIsMiscompiled | src/compiler.c:295-302 | such a program exists: 65 calls in front of a definition compile without an error, and the 65th goes to -1 |
| Acceptance.AcceptedExpr | src/compiler.c:1040-1146 | an expression that `parse_precedence` accepts is well typed, if it asks for order of ints only and for equality of ints and bools only |
| Acceptance.OkBin | src/compiler.c:1040-1126 | for operands that obey those two rules, what `binary` accepts is exactly what the static rules demand |
| Acceptance.AcceptedCall | src/compiler.c:1770-1798 | a call that is accepted is that of a known function, with arguments of the number and types of its parameters |
| Acceptance.AcceptedAssign | src/compiler.c:1807-1917 | an accepted assignment keeps the type of its variable, unless the variable is declared again at another type |
| Acceptance.AcceptedBreak | src/compiler.c:1924-1949 | accepted breaks and continues are in a loop, with at most 64 breaks to a loop |
| Acceptance.AcceptedStmt | src/compiler.c:2240-2580 | a statement that `statement` accepts is well formed, if it obeys the rules that the compiler leaves to the programmer |
| Acceptance.CatchScope | src/compiler.c:2458-2477 | the scope behind a try is that behind its body if and only if the handler declares nothing: `local_count--` drops the newest local |
| AcceptedPrograms.AcceptedFunction | src/compiler.c:423-535 | the body of an accepted function has the declared result type |
| AcceptedPrograms.WellTypedIffAccepted | src/compiler.c:2582-2682 | among the programs that obey the rules the compiler does not check, it accepts the well-typed ones and no others |
| AcceptedPrograms.AcceptedProgramsAreSafe | src/compiler.c:1040-1146 | no run of an accepted program that obeys those rules meets a type error, an unassigned local, a missing operand or a wrong union member |
| AcceptedPrograms.AcceptedCodeIsSafe | src/vm.c:1626-2361 | `vm_run` on what the compiler made of it finishes, ends in an exception that is no type error, fills the operand stack or divides INT64_MIN by -1, if no function has a 65th forward call and no run a seventeenth handler |
| Mixed.OrderRuleIsNeeded | src/compiler.c:1093-1109 | the rule on order is needed: the program that prints `true < false` is accepted and stops with a type error |
| Correctness.CompilerAndMachineAreCorrect | src/vm.c:1626-2361 | from tokens to behaviour: the compiler accepts the printed program and `vm_run` on its output stops with a result and an output if and only if the program does, for programs within the limits of the compiler that never open a seventeenth handler |
| Correctness.CorrectByText | src/vm.c:1626-2361 | the same with a condition on the text: no chain of calls nests more than sixteen try blocks |
| Correctness.DivergenceFromTokens | src/vm.c:1626-2361 | and it goes on for ever if and only if the program does |
| Correctness.CompilerIsCorrect | src/compiler.c:2582-2682 | without the limit on handlers the output of the compiler does what the program means, for every program within the limits of the compiler |
| Correctness.TogetherIffEnoughHandlers | src/vm.c:2006-2011 | on the output of the compiler `vm_run` stays in step with the machine without that limit if and only if no run opens a seventeenth handler |
| Nested.SeventeenthHandlerBreaks | src/vm.c:2006-2011 | a well-typed program of seventeen nested try blocks that means to print 100 and makes `vm_run` print 1002 |
| Nested.NestedLacksHandlers | src/vm.c:2006-2011 | that program does open a seventeenth handler |
| JumpTargets.StmtSited | src/compiler.c:2240-2580 | the placeholders of every statement are patched to instruction boundaries of its own code, or for break and continue of the loop around it |
| JumpTargets.FunListed | src/compiler.c:423-535 | the code of a function is a jump to its end and a body whose jumps all stay on instructions inside |
| JumpTargets.JumpPatchingIsComplete | src/compiler.c:234-239 | the output of the compiler disassembles to a list in which every jump, conditional jump and handler address is the offset of an instruction of the same function, or the end of the function for the jump over it, and every call operand is the entry of a function |
| Chunks.Chunk.constructor | src/compiler.c:221-228 | an empty chunk |
| Chunks.Chunk.EmitByte | src/compiler.c:221-228 | appends one byte to the growing buffer |
| Chunks.Chunk.EmitLittleEndian | src/compiler.c:240-252 | appends the low bytes of a number, least significant first |
| Chunks.Chunk.PatchInt32 | src/compiler.c:234-239 | overwrites four bytes in place |
| Chunks.Chunk.EmitInstr | src/compiler.c:229-233 | appends an encoded instruction |
| OnePass.Compiler.ParsePrecedence | src/compiler.c:2018-2032 | the loop of prefix and infix rules, so that `Pratt.ExpressionFollowsGrammar` holds of it: in place, the new compiler state is that of the specification applied to the old one |
| OnePass.Compiler.BinaryRule | src/compiler.c:1040-1126 | operand checks and the operator instruction: in place, the new compiler state is that of the specification applied to the old one |
| OnePass.Compiler.UnaryRule | src/compiler.c:1127-1146 | minus and not: in place, the new compiler state is that of the specification applied to the old one |
| OnePass.Compiler.Variable | src/compiler.c:1470-1798 | a local, or a direct call: in place, the new compiler state is that of the specification applied to the old one |
| OnePass.Compiler.CallFunction | src/compiler.c:1770-1798 | arguments, their types and the call: in place, the new compiler state is that of the specification applied to the old one |
| OnePass.Compiler.EmitDirectFunctionCall | src/compiler.c:295-302 | emits the call and records the patch: in place, the new compiler state is that of the specification applied to the old one |
| OnePass.Compiler.Assignment | src/compiler.c:1807-1917 | stores to an old or a new local: in place, the new compiler state is that of the specification applied to the old one |
| OnePass.Compiler.BreakOp | src/compiler.c:1924-1939 | emits the jump and records it with the loop: in place, the new compiler state is that of the specification applied to the old one |
| OnePass.Compiler.ContinueOp | src/compiler.c:1940-1949 | jumps to the condition: in place, the new compiler state is that of the specification applied to the old one |
| OnePass.Compiler.ReturnOp | src/compiler.c:1950-1985 | checks the type and emits the return: in place, the new compiler state is that of the specification applied to the old one |
| OnePass.Compiler.Statement | src/compiler.c:2240-2580 | one statement: in place, the new compiler state is that of the specification applied to the old one |
| OnePass.Compiler.IfStatement | src/compiler.c:2480-2525 | condition, arms and patches: in place, the new compiler state is that of the specification applied to the old one |
| OnePass.Compiler.LoopStatement | src/compiler.c:2526-2576 | condition, body, back jump and patches: in place, the new compiler state is that of the specification applied to the old one |
| OnePass.Compiler.TryStatement | src/compiler.c:2445-2477 | handler, body and patches: in place, the new compiler state is that of the specification applied to the old one |
| OnePass.Compiler.BlockRule | src/compiler.c:2036-2051 | statements between brackets: in place, the new compiler state is that of the specification applied to the old one |
| OnePass.Compiler.FunctionDefinition | src/compiler.c:423-535 | header, body, return and patches: in place, the new compiler state is that of the specification applied to the old one |
| OnePass.Compiler.Define | src/compiler.c:460-475 | patches the pending calls and sets the address: in place, the new compiler state is that of the specification applied to the old one |
| OnePass.Compiler.Predeclare | src/compiler.c:304-422 | the first pass: in place, the new compiler state is that of the specification applied to the old one |
| OnePass.Compiler.TopLevel | src/compiler.c:2070-2186 | the loop over definitions: in place, the new compiler state is that of the specification applied to the old one |
| OnePass.Compiler.Finish | src/compiler.c:2666-2682 | the call of main and the halt: in place, the new compiler state is that of the specification applied to the old one |
| OnePass.Compile | src/compiler.c:2582-2682 | the imperative compiler computes the specified result for every token sequence |
| Isolation.TurnIsTidy | src/vm.c:1501-1517 | every turn of any code with slots below 48 keeps all slots above the live frames void and all slots of the callers unchanged |
| Isolation.CalleeIsIsolated | src/vm.c:1501-1517 | on the byte machine of part 1: a callee, through arbitrary nested calls, throws and catches until its frame is gone, leaves every caller slot as it was |
| Captures.CopyInFills | src/vm.c:1509-1514 | `begin_call` copies the captures of a closure, in order, into the first slots of the new frame and writes to no other slot |
| Captures.InvokeEnters | src/vm.c:2214-2221 | OP_INVOKE of a closure enters a frame that holds its captures and otherwise void slots; the stack loses the closure, and every other slot stays |
| Captures.StepIsIsolated | src/vm.c:1643-2225 | one instruction, OP_INVOKE included, leaves alone the slots of every frame that stays but the running one, and changes no closure |
| Captures.CalleeIsIsolated | src/vm.c:1501-1517 | a callee, closures invoked inside it included, leaves the slots of every caller as they were until its frame is gone |
| Captures.ClosuresLast | src/vm.c:1925-1935 | along every run a closure keeps its captures, unchanged, for as long as it is not freed |
| Captures.PopItemsTake | src/vm.c:1929-1932 | OP_PUSH_FUNC captures the top of the stack in the order in which it was pushed |
| Captures.EveryInvocationStartsFromTheCaptures | src/vm.c:2214-2221 | every invocation of a closure, whatever ran since it was made, starts from the values captured then, with the rest of its frame void |
| Unwinding.TurnHolds | src/vm.c:2006-2037 | every turn inside a try block keeps the stacks of the block below it and the handler stack ordered by stack and frame height |
| Unwinding.ThrowRestoresTry | src/vm.c:2016-2037 | from OP_TRY through any turns inside its block to an OP_THROW: the handler runs with the operand stack of the OP_TRY plus the error, the same frames and handlers, caller slots unchanged and unwound slots void |
| VmLoop.VirtualMachine.VmPush | src/vm.c:1562-1570 | push or stop on overflow: in place on arrays, the outcome is that of the specified machine |
| VmLoop.VirtualMachine.VmPop | src/vm.c:1571-1576 | pop, or stop on underflow when the stack is empty: in place on arrays, the outcome is that of the specified machine |
| VmLoop.VirtualMachine.RaiseValue | src/vm.c:1579-1608 | the unwinding loops: in place on arrays, the outcome is that of the specified machine |
| VmLoop.VirtualMachine.PopFrames | src/vm.c:1592-1599 | clears the slots of each unwound frame: in place on arrays, the outcome is that of the specified machine |
| VmLoop.VirtualMachine.Call | src/vm.c:1501-1517 | the new frame: in place on arrays, the outcome is that of the specified machine |
| VmLoop.VirtualMachine.OperateOn | src/vm.c:1663-1863 | the operator instructions on ints and bools, whose results `Operators` states in plain numbers and truth values: in place on arrays, the outcome is that of the specified machine |
| VmLoop.VirtualMachine.FetchInstr | src/vm.c:1610-1629 | reads opcode and operand: in place on arrays, the outcome is that of the specified machine |
| VmLoop.VirtualMachine.Dispatch | src/vm.c:1628-2037 | the cases of the switch for the instructions of part 1: in place on arrays, the outcome is that of the specified machine |
| VmLoop.VirtualMachine.TakeTurn | src/vm.c:1626-1629 | one pass of the loop: in place on arrays, the outcome is that of the specified machine |
| VmLoop.VirtualMachine.VmRun | src/vm.c:1626-2361 | n passes of the loop: in place on arrays, the outcome is that of the specified machine |
| HashMap.HashValue | src/vm.c:186-218 | the hash loop computes FNV-1a on strings, the low 32 bits of ints |
| HashMap.OnlyCTextsAgree | src/vm.c:259-275 | a heap string is equal only to itself among strings without a zero byte if and only if it has none: `strcmp` stops at the first, where the hash does not |
| HashMap.EmptyAndCharZero | src/vm.c:650-655 | the failing pair: the empty string and `char(0)` are equal but hash to different slots of a new map |
| HashMap.FreeEndsSearch | src/vm.c:318-330 | a search that meets a free slot has looked everywhere the key could be |
| HashMap.BetweenMeans | src/vm.c:617-626 | the cyclic `between` test holds if and only if the home slot of entry j is not on the wrong side of the hole |
| HashMap.MoveEntry | src/vm.c:628-631 | an entry whose home is not between may move into the hole: all entries stay reachable |
| HashMap.SkipEntry | src/vm.c:617-626 | an entry whose home is between must stay: all entries stay reachable past the hole |
| HashMap.CloseHole | src/vm.c:614-636 | when the shift ends at a free slot the table without the key is in order again |
| HashMap.LoadTest | src/vm.c:282-282 | the double comparison with `capacity * 0.7` is exactly `10 * count >= 7 * capacity` |
| HashMap.CountIsUsed | src/vm.c:277-316 | the count is the number of used slots; it is below the capacity if and only if a slot is free |
| HashMap.ObjMap.constructor | src/vm.c:155-164 | a new map is empty, with its eight slots |
| HashMap.ObjMap.Probe | src/vm.c:298-307 | the probe loop ends, at the key if it is there and at a free slot otherwise |
| HashMap.ObjMap.Get | src/vm.c:318-330 | returns the value last set and not deleted, void when there is none |
| HashMap.ObjMap.Set | src/vm.c:277-316 | the contents become the old contents with this one binding; the table is replaced only when it was at its load limit |
| HashMap.ObjMap.Grow | src/vm.c:282-296 | rehashing into twice the slots loses nothing and never resizes again inside |
| HashMap.ObjMap.Delete | src/vm.c:595-641 | exactly the deleted key disappears, in place |
| HashMap.ObjMap.Shift | src/vm.c:611-636 | the backward shift closes the hole and ends |
| HashMap.ObjMap.Keys | src/vm.c:578-594 | lists every key of the map exactly once |
| Ring.Append | src/vm.c:2294-2296 | writing at the tail appends to the window of the ring |
| Ring.RemoveFirst | src/vm.c:2343-2345 | moving the head takes the oldest value off the window |
| Ring.RingBuffer.Put | src/vm.c:2294-2296 | in place: the contents grow by one at the end |
| Ring.RingBuffer.Take | src/vm.c:2343-2345 | in place: the oldest value leaves |
| Buffered.EveryStepIsFine | src/vm.c:2281-2348 | every critical section of every thread keeps ring and threads in order, never leaves too few threads awake, moves the queue as its event says, and answers its thread: a send is accepted with the value the thread gave and leaves, waits only when the ring is full, and is refused only after close |
| Buffered.ChannelIsFirstInFirstOut | src/vm.c:2281-2348 | over every interleaving from a new channel, the values that the accepted sends were given, in the order of acceptance, are what was delivered followed by the ring window, and each accepted value is that of the last Send of its thread, however often it waited |
| Buffered.AcceptedIsGiven | src/vm.c:2281-2299 | from any state of a channel on, an accepted value is the one its sender gave, and each send is accepted at most once |
| Buffered.ClosedIsFinal | src/vm.c:1371-1383 | nothing is accepted after close, and once a receiver got void the channel is closed and drained for good |
| Buffered.NoLostWakeup | src/vm.c:2281-2347 | while open, if a receiver sleeps at least count receivers are awake, and if a sender sleeps at least as many as there are free slots; once closed nobody sleeps |
| Buffered.ReadyMeansProgress | src/vm.c:2281-2347 | a ready value, a free slot or a close with a thread inside has an awakened thread that finishes as soon as it runs |
| Buffered.Channel.SendPass | src/vm.c:2281-2299 | one pass of OP_SEND, in place, is the specified step, and puts the value given at the tail |
| Buffered.Channel.RecvPass | src/vm.c:2332-2348 | one pass of OP_RECV, in place, is the specified step |
| Buffered.Channel.CloseAll | src/vm.c:1371-1383 | closing wakes everybody, in place |
| HandOff.EveryStepIsFine | src/vm.c:2259-2330 | every critical section keeps the receivers counted and one of them awake for a value in the slot, even across close, and answers its thread: a sender places the value it offers, and only when a receiver waits and the slot is free |
| HandOff.HandOffIsExactlyOnce | src/vm.c:2259-2330 | over every interleaving, the values that the placed sends were given are what was taken, in order, then at most one value in flight, and a counted awakened receiver takes exactly that one next |
| HandOff.PlacedIsGiven | src/vm.c:2259-2280 | from any state of a channel on, a placed value is the one its sender gave |
| HandOff.ReturnedMeansReceived | src/vm.c:2277-2280 | a send that returns on an open channel finds every placed value taken |
| HandOff.OneSenderIsNeverStranded | src/vm.c:2260-2280 | with one sender at a time, a sleeping sender has a true wait condition, along every run |
| HandOff.TwoSendersCanStrand | src/vm.c:2260-2280 | with two, a reachable state has a sender asleep whose value was received, nobody awake and no receiver inside |
| HandOff.SendersAreSafeIffAlone | src/vm.c:2260-2280 | runs with at most k senders at a time never strand one if and only if k is at most 1 |
| HandOff.Channel.SendPass | src/vm.c:2259-2280 | one pass of an unbuffered OP_SEND, in place, is the specified step |
| HandOff.Channel.RecvPass | src/vm.c:2314-2330 | one pass of an unbuffered OP_RECV, in place, is the specified step |
| HandOff.Channel.CloseAll | src/vm.c:1371-1383 | closing wakes everybody, in place |
| Counting.RetainIsExact | src/vm.c:20-26 | a retain through a live reference adds one owner |
| Counting.ReleaseIsExact | src/vm.c:31-117 | a release by an owner, with its whole cascade, frees only what has no owner left, each object once, and keeps every count exact |
| Counting.NewIsExact | src/vm.c:119-165 | a new object takes over its parts and has one owner |
| Counting.ReleaseAroundPut | src/vm.c:2050-2052 | while an object stays live, a cascade never looks at what it owns: releasing before or after the overwrite is the same |
| Counting.OverwriteIsExact | src/vm.c:2050-2052 | release old, retain new, write keeps every count exact, whatever the release sets off |
| Owners.RehashChangesNothing | src/vm.c:282-296 | the retains and releases of a resize leave every count as it was |
| Owners.SetYoungKeeps | src/vm.c:2087-2098 | `map_set` while OP_MAP fills a map keeps the counts exact, on new and old keys |
| Owners.SetEntryKeeps | src/vm.c:277-316 | `map_set` on a map in use keeps the counts exact, even when the old value refers back to the map |
| Owners.RaiseKeeps | src/vm.c:1579-1608 | `runtime_error`, with all its unwinding, keeps the counts exact |
| Owners.BeginCallKeeps | src/vm.c:1501-1517 | a call, with a retain for each capture that it copies, keeps every count exact |
| Owners.PopFrameKeeps | src/vm.c:1905-1912 | a return releases every slot of its frame and leaves it void |
| Accounting.SetIndexKeeps | src/vm.c:2038-2063 | OP_SET_INDEX on arrays and maps, with its error branches |
| Accounting.InvokeKeeps | src/vm.c:2214-2221 | OP_INVOKE of a closure, with the release of the closure behind it, keeps every count exact |
| Accounting.ThrowKeeps | src/vm.c:2016-2037 | OP_THROW leaves exactly one owner too many, of the value it throws |
| Accounting.StepIsExact | src/vm.c:1643-2098 | every instruction of the model keeps each count equal to the number of owners |
| Accounting.CountsAreExact | src/vm.c:31-117 | along every run no freed object is touched or freed again, and each count is the number of references from stack, locals, live objects and values thrown so far |
| Accounting.ExactIffNoObjectThrown | src/vm.c:2034-2034 | the counts are exact if and only if no OP_THROW threw a heap object |
| Accounting.ThrownStringIsLeaked | src/vm.c:2034-2034 | a run of four instructions after which a string stays in memory with nothing referring to it |
| Accounting.ReachableIsLive | src/vm.c:31-117 | what the stack or the locals can reach through any path has not been freed |
| Accounting.LiveIsReachable | src/vm.c:31-117 | without cycles nothing is kept that cannot be reached from the stack, the locals or a thrown value |
| InPlace.Interpreter.ReleaseItem | src/vm.c:109-117 | release, in place: heap, stack, locals, frames and handlers become those of the specified step |
| InPlace.Interpreter.FreeObject | src/vm.c:31-107 | the loops of `free_object`, in place: heap, stack, locals, frames and handlers become those of the specified step |
| InPlace.Interpreter.Raise | src/vm.c:1579-1608 | `runtime_error`, in place: heap, stack, locals, frames and handlers become those of the specified step |
| InPlace.Interpreter.PopFrame | src/vm.c:1905-1912 | the loop that clears a frame, in place: heap, stack, locals, frames and handlers become those of the specified step |
| InPlace.Interpreter.BeginCall | src/vm.c:1501-1517 | `begin_call`, in place: heap, stack, locals, frames and handlers become those of the specified step |
| InPlace.Interpreter.SetEntry | src/vm.c:277-315 | `map_set`, in place: heap, stack, locals, frames and handlers become those of the specified step |
| InPlace.Interpreter.DoSetIndex | src/vm.c:2038-2063 | OP_SET_INDEX, in place: heap, stack, locals, frames and handlers become those of the specified step |
| InPlace.Interpreter.DoMap | src/vm.c:2087-2098 | OP_MAP, in place: heap, stack, locals, frames and handlers become those of the specified step |
| InPlace.Interpreter.DoThrow | src/vm.c:2016-2037 | OP_THROW, in place: heap, stack, locals, frames and handlers become those of the specified step |
| InPlace.Interpreter.Step | src/vm.c:1626-2098 | one instruction, whose values `Elements` states, in place: heap, stack, locals, frames and handlers become those of the specified step |
| Elements.ConstantsArePushed | src/vm.c:1632-1655 | constants are pushed as they are, a string constant as a new string |
| Elements.IntsAreAdded | src/vm.c:1760-1766 | OP_ADD on ints leaves their sum modulo 2^64 |
| Elements.TextsAreJoined | src/vm.c:1767-1780 | OP_ADD on strings leaves a new string, their concatenation |
| Elements.IntsAreDivided | src/vm.c:1817-1841 | OP_DIV leaves the quotient truncated toward zero, or raises |
| Elements.EqualIsSameKey | src/vm.c:259-275 | OP_EQ leaves true exactly for operands that stand for the same number, truth value, text or array |
| Elements.StoredIsLoaded | src/vm.c:1864-1877 | a stored value is what the slot gives from then on, and every other slot gives what it gave |
| Elements.ItemIsGiven | src/vm.c:1936-1947 | OP_INDEX on an array gives the item at the index cut to 32 bits, and raises outside |
| Elements.CharacterIsGiven | src/vm.c:1948-1960 | OP_INDEX on a string gives a new string of that one character |
| Elements.ArrayGivesItsItems | src/vm.c:2064-2076 | after v0 to v(n-1), OP_ARRAY, a constant k and OP_INDEX the top of the stack is v(k) |
| Elements.AssignedItemIsGiven | src/vm.c:2038-2055 | after OP_SET_INDEX of w at k, OP_INDEX through any holder of the array gives w at k and the old item at every other index |
| Elements.FindLooksUp | src/vm.c:318-330 | a search in the entries of a map finds exactly the keys it binds as a finite map |
| Elements.ValueIsGiven | src/vm.c:1961-1975 | OP_INDEX on a map gives the value of the key, and raises when there is none |
| Elements.KeyIsBound | src/vm.c:2056-2058 | OP_SET_INDEX on a map binds its key and no other, and no other object changes |
| Elements.AssignedValueIsGiven | src/vm.c:2038-2063 | after OP_SET_INDEX of w at a key, OP_INDEX with a constant gives w when it is that key and the old value for every other key |
| Elements.MapIsMade | src/vm.c:2087-2099 | OP_MAP makes the finite map of its pairs, the first pair of a key counting |
| Elements.MapGivesItsValues | src/vm.c:2087-2099 | after the pairs, OP_MAP, a constant and OP_INDEX the top of the stack is the value of that key |
| Elements.ThrownIsCaught | src/vm.c:2016-2037 | OP_THROW leaves the stack and frames of the handler with the thrown value on top, and the slots of the frames that stay |
| Elements.RaisedIsCaught | src/vm.c:1579-1608 | `runtime_error` does so with a new string of its text |
| Elements.HandlerRemembers | src/vm.c:2006-2015 | a handler catches with the stack, frames and handlers of its OP_TRY |
| Doubles.NearestIsNearest | src/vm.c:965-971 | rounding gives a double to which no other double is nearer |
| Doubles.NearestIsExact | src/vm.c:965-971 | an integer survives rounding if and only if a double holds it |
| Json.DigitsStandFor | src/vm.c:893-895 | the decimal digits of a number stand for that number |
| Json.SetMemberKeeps | src/vm.c:277-316 | setting a member keeps each key once |
| Json.SetMemberBinds | src/vm.c:277-316 | setting a member binds its key to the value and no other key, and adds the key at the end only when it is new |
| Json.LastValueCounts | src/vm.c:1003-1020 | of several entries with one key in a text the last value counts |
| Json.PrintIsFlat | src/vm.c:890-936 | `json_stringify` writes the tokens of the value, given in plain bytes, one after the other |
| Json.TreeComesBack | src/vm.c:1022-1032 | `parse_value` on any text of a clean tree, its tokens with any runs of the six white space bytes before them, anywhere in a longer text, returns the tree with repeated keys merged and stops right behind the last token |
| Json.ItemsComeBack | src/vm.c:983-1001 | so does the loop of `parse_array`, item by item |
| Json.EntriesComeBack | src/vm.c:1003-1020 | so does the loop of `parse_object`, setting the entries one after the other |
| Json.SpacedTextIsRead | src/vm.c:1358-1369 | `json_parse` accepts every such text, with any text behind it that can follow a value, unless the value is null and not the end of the text; a tree with each key once comes back as it is |
| Json.NoValueIsAnError | src/vm.c:1358-1369 | text that starts with no value, after any white space, is an error, and nothing but white space is null |
| Json.ParsedIsKept | src/vm.c:1022-1032 | on any text at all the parser returns only strings without quotes and zero bytes, ints that a double holds, and maps with each key once |
| Json.CleanTreesRoundTrip | src/vm.c:1358-1369 | `json_parse` on the output of `json_stringify` returns a clean tree as it was, having consumed the whole text |
| Json.RoundTripsIffClean | src/vm.c:1358-1369 | a value without floats comes back if and only if no string in it has a quote or a zero byte and a double holds every int |
| Json.ParsedComesBack | src/vm.c:1358-1369 | whatever `json_parse` returned, for whatever text, prints and parses back as it is, if it holds no float |
| Json.IntsComeBack | src/vm.c:965-971 | every int within 2^53 comes back and 2^53 + 1 does not |
| Json.AnswerStays | src/vm.c:1022-1032 | the bound on the number of steps only decides whether there is an answer, never which |
| Json.StrtodExists | src/vm.c:967-967 | the assumptions on `strtod` can be met |
| JsonText.StringBuilder.Append | src/vm.c:879-888 | appends a C string up to its zero byte to the growing buffer |
| JsonText.StringBuilder.Stringify | src/vm.c:890-936 | in place: the buffer grows by exactly the text of the value |
| JsonText.JsonStringify | src/vm.c:938-947 | returns the text of the value |
| JsonText.Reader.ParseArray | src/vm.c:983-1001 | in place: the cursor and the result are those of the specified parser |
| JsonText.Reader.ParseObject | src/vm.c:1003-1020 | in place: the cursor and the result are those of the specified parser |
| JsonText.Reader.ParseValue | src/vm.c:1022-1032 | in place: wherever the parse ends, the cursor and the result are those of the specified parser, so that `Json.TreeComesBack` holds of it |
| JsonText.JsonParse | src/vm.c:1358-1369 | the whole parse, with its error for text that is no value, so that `Json.SpacedTextIsRead` and `Json.NoValueIsAnError` hold of it |
| JsonText.ThereAndBack | src/vm.c:1358-1369 | printing with one method and parsing with the other returns a clean value |

## Left out

Compiler and machine:

- Correctness.CompilerAndMachineAreCorrect: programs are given as their printed tokens; the lexer is not part of this model, and tokens stand on one line, each statement closed by a semicolon, so implicit terminators at line ends, arms without brackets and redundant parentheses are modelled in `Parsing` and `Compiler` but not reached by printed programs; `Pratt.ExpressionFollowsGrammar` has redundant parentheses, and it, `Pratt.PrintEndsAtNewLine` and `Pratt.JumpsEndAtNewLine` have line ends.
- Correctness.CompilerAndMachineAreCorrect: asks for at most 64 forward calls per function and for no seventeenth open handler; `Forward.CompilesIffFewForwardCalls`, `Correctness.TogetherIffEnoughHandlers` and `Nested.SeventeenthHandlerBreaks` say what happens beyond, but not for which of those programs `vm_run` still prints the right output.
- Correctness.DivergenceFromTokens: the same.
- EndToEnd.VmDiverges: the same.
- AcceptedPrograms.AcceptedCodeIsSafe: the same; a 65th forward call goes to address -1.
- AcceptedPrograms.WellTypedIffAccepted: speaks of printed programs; a call of a built-in function counts as outside the model, not as rejected.
- Correctness.CompilerAndMachineAreCorrect: the text of error messages and of printed values is not modelled; output is the list of values printed, and an uncaught error is a result of its own.
- Compilation.CompileEmits: asks for less than 2^31 bytes of code, at most 256 functions, 48 locals per function, 16 parameters and 64 breaks per loop, and for function names that are not those of built-in functions.
- Soundness.WellTypedPrograms: two's complement wrap-around is taken for + - * and unary minus; INT64_MIN divided by -1 is an outcome of its own.
- Floats, strings, arrays, maps, enums, structs, match, function values, closures, imports and exported names in the compiler: their rules would add cases of the same kind.
- A bare `^` with no value, calls of void built-in functions and `match` inside loops leave a stray value on the stack; return, break and continue do not leave a try block, which would leave its handler behind.
- The compile errors: the model stops at the first one with a fault and does not follow the recovery behind it.
- The handler stack of a thread started by `go`, and the table of built-in functions that `vm_init` puts into the slots of frame 0: the machine starts with void slots.
- VmLoop.VirtualMachine.OperateOn: float operands and the concatenation of strings are left out.
- VmLoop.VirtualMachine.Dispatch: has the cases of the instructions that the programs of part 1 compile to; `InstructionSet` has the bytes of all, and part 4 more of their effects.
- VmLoop.VirtualMachine.VmRun: runs a given number of turns, since the loop of `vm_run` need not end.
- Unwinding.ThrowRestoresTry: is about arbitrary code, so staying inside the block is a condition on its turns, with no OP_TRY beyond sixteen open handlers and no return out of the block; for compiled try blocks `Simulation.SimTry` needs no such condition.
- Isolation.CalleeIsIsolated: the machine of part 1 has no closures; `Captures.CalleeIsIsolated` has them.

Hash map:

- HashMap.ObjMap.Set: keys are ints, bools and strings without a zero byte, on which `values_equal` and `hash_value` agree; float keys are left out because the two disagree on signed zero, and objects other than strings because their hash is their address.
- HashMap.HashValue: the same keys only.
- HashMap.ObjMap.Grow: capacities are taken to stay below 2^31, and memory to be sufficient.

Channels:

- Buffered.EveryStepIsFine: a step is one pass through a critical section; the mutex itself, and the reference counts of values that pass through, are not modelled here.
- HandOff.OneSenderIsNeverStranded: liveness of senders is claimed for one sender at a time only, because with two it fails.
- OP_CHAN turns a negative capacity into an unbuffered channel; threads and their start are not modelled.

Reference counts:

- Accounting.CountsAreExact: holds for any sequence of the modelled instructions, so control flow does not matter and code is not decoded there; slot operands stay below 48, as the compiler keeps them.
- Captures.EveryInvocationStartsFromTheCaptures: a closure has at most 48 captures, where the compiler allows 16; the address that is called is not modelled there.
- Accounting.StepIsExact: floats, the other operators, structs, enums, channels, OP_AS_TYPE and the two payload instructions (which retain once too often), calls of built-in functions and `go` are left out; a closure with more than 48 captures stops the model, where the compiler allows 16.
- Accounting.CountsAreExact: freed cells are not reused, texts of error messages are empty, and at a return without a frame or a seventeenth handler the model stops.
- InPlace.Interpreter.Step: cells are a sequence field, not individually allocated objects; stack, locals, frames and handlers are arrays updated in place.
- Elements.AssignedValueIsGiven: the order of the entries of a map, its capacity and the hashes, in which strings with a zero byte can differ although they are equal, are left to `HashMap`; a key that is void, a map or a closure equals nothing, so no search finds it.
- The message of an index out of bounds reads the length of the array after releasing it; the model does not build that message.

JSON:

- Json.RoundTripsIffClean: says nothing about values with floats, whose `%g` text and reading are parameters.
- Json.ParsedComesBack: likewise; the text of a float may read back as a different float or as an int.
- Json.ParseValue: the parser need not end on malformed text, so the number of steps is bounded by a parameter; `Json.AnswerStays` says that the bound never changes an answer.
- Json.SpacedTextIsRead: text in which a comma or a colon is missing is accepted by the parser too; what it makes of such text is only bounded by `Json.ParsedIsKept`.
- Json.SetMember: an object is the list of its entries; the printer goes through them in the order of the table, which is not modelled, so the results hold for every order, and memory and recursion depth are taken to be sufficient.
- Json.FromDouble: a whole number outside the range of 64 bits becomes a float, where the cast in the source is undefined.

Files, sockets, HTTP, regular expressions, foreign calls, clock, random numbers and the command line are left out altogether.
