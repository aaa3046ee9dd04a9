# A verified model of HyperDbg's script engine, settings file and serial receivers

HyperDbg runs small scripts on debugger events.  A script goes through three
stages, and the model follows them:

1. **Parsers.**  Statements are parsed top-down by table; boolean expressions go to
   a shift/reduce driver with tables of its own.  What a parser does to the compiler is
   a sequence of *actions*: push an operand, or fire a semantic rule such as `@JZ`.
2. **Code generator.**  `CodeGen` fires the rules in one pass.  It keeps an operand
   stack that also holds markers and saved addresses, takes temporaries first-fit
   from 128 slots, emits cells and patches jump operands once their targets are known.
3. **Machine.**  `ScriptEngineExecute` decodes one instruction at the current cell;
   the driver repeats this until the index leaves the code or an error is reported.

The central claim is that these agree, with the tables the repository ships.  Tokens
that are accepted derive from the grammar, the derivation reads as a script, and that
script has been compiled into the code its statements describe.  Running the code has
exactly the effect the script means, and never leaves the instructions or the tables.
`ShippedScript.AcceptedMeansScript` says this from the first token to the last cell.

## How the proof is built

| files | part |
|---|---|
| `Words`, `Registers`, `Script` | 64-bit values, register views, the scripts |
| `Codegen` | each semantic rule as a function on (stack, code, temporaries, identifiers, status) |
| `Layout` | the same code written down directly, every address explicit |
| `Stacks`, `Backpatch`, `Refinement`, `Compilation`, `Misuse` | the one-pass generator produces the explicit code, and fails exactly when it should |
| `Machine`, `Semantics` | the instruction step, and a clocked big-step meaning of scripts |
| `Preservation`, `Simulation`, `Correctness` | running the explicit code simulates the meaning, in both directions |
| `Jumps`, `Escapes`, `Alignment` | where jumps go, and that decoding stays in step |
| `Temps`, `TempsNeeded` | the temporary allocator: an invariant over all runs, and exact counts |
| `Lalr`, `Parsing` | the shift/reduce driver over coherent tables, and accepted text as expressions |
| `ShippedTables`, `ShippedParser` | the tables in the repository, proved coherent, and what follows for them |
| `Ll`, `Reading` | the top-down driver over any table, and derivation trees as statements |
| `ShippedGrammar`, `ShippedRows`, `ShippedTidy`, `ShippedScript` | the grammar and table in the repository: accepted text is a script, and means what the script means |
| `Generator`, `ScriptParser`, `ScriptMachine`, `Session` | generator, parser, machine and session with the source's loops, proved against the functions above |
| `SymbolBuffer`, `RegisterViews`, `Numbers` | the growing cell buffer in bytes, register overlays, numbers as text |
| `Ini`, `IniFile` | the settings file: reader, writer and their normal form |
| `Serial`, `Max311`, `Msm8974`, `Sdm845` | the receive sides of three UART drivers against plain queues |

Every operation that the source performs by changing things step by step is a
method here, with the source's loops; its contract ties it to a function, and the
theorems are about that function.

## Where the code decides

The model does what the code does where its documentation or names suggest otherwise:

- `&&` and `||` are the bitwise operators.
- A `continue` inside a `while` or `do-while` that is itself inside a `for` goes to
  the step of that `for`.  Without a `for` around it, it is a syntax error.
- A bare `continue` as the first thing above a `for`'s saved address pushes that
  address twice; `@END_OF_FOR` then reads a marker as an address.  The status
  `Undefined` stands for this, for pops from an empty stack and for writes outside
  the code.  `Compilation.Safe` says which scripts avoid it.
- A `for` header whose last part is a bare l-value leaves an operand where
  `@START_OF_FOR_COMMANDS` expects an address.  This too is `Undefined`.
- The statement parser does not compare the token it pushes as an operand, nor the
  one that closes a boolean expression, with the terminal its grammar names there.
- `for` conditions and print-like calls do not give their temporary back, so it is
  lost until a script fails.  `TempsNeeded` counts this exactly.
- `x = x` with an undefined `x` fails but leaves `x` defined.
- A failing script does not undo the identifiers it defined.
- The SDM845 driver reads one word more than counted when the last word is full.
- The MSM8974 driver hands out more than the snapshot when the snapshot arrives
  after the words it describes.

## Model

| member | source | states |
|---|---|---|
| Correctness.ScriptRuns | hyperdbg/script-engine/code/script-engine.c:487-1505 | semantic preservation, forward: a compiled script that ends takes the machine to the end of the code, or to the reported division by zero, with the variables, registers and output the big-step semantics gives; a script that uses up its clock keeps the machine running at least as many steps |
| Correctness.MachineMeansScript | hyperdbg/script-eval/code/ScriptEngineEval.c:214-1494 | semantic preservation, backward: whenever the machine stops after n steps, the script ends within n + 1 loop rounds and in the same way, with an error exactly for a division by zero |
| Correctness.NeverWild | hyperdbg/script-eval/code/ScriptEngineEval.c:214-1494 | safety of every run of compiled code from any table contents: only operators are decoded, no table is left, and the index is an operator cell or the end |
| Correctness.MoreClock | hyperdbg/script-eval/code/ScriptEngineEval.c:1414-1465 | the meaning of a script does not depend on the clock: an outcome other than timeout is the same with more clock |
| Correctness.NoEscape | hyperdbg/script-engine/code/script-engine.c:1318-1459 | no break or continue of a script that compiles escapes its loops |
| Simulation.StmtRuns | hyperdbg/script-eval/code/ScriptEngineEval.c:471-1494 | the code of any statement at any address, run from agreeing tables, reaches the cell after it, its break target, its continue target or the error that the semantics gives |
| Preservation.ExprRuns | hyperdbg/script-eval/code/ScriptEngineEval.c:471-944 | the cells of any expression that compiles leave its 64-bit value in the operand the generator has on top, left and right in source order, and change no variable, register or temporary that was live before; or they stop at the division by zero |
| Misuse.CompileExact | hyperdbg/script-engine/code/script-engine.c:519-1459 | a script compiles if and only if its continues are not bare, its variables are assigned before use, its breaks and continues are inside loops and its temporaries fit; the one-pass, backpatched result is then the address-explicit code, and the operand stack is empty again |
| Misuse.BareContinueIsUndefined | hyperdbg/script-engine/code/script-engine.c:1396-1459 | a `for` whose body is a bare continue makes the generator treat a marker as an address, for every condition and step that compile |
| Compilation.StmtGenerates | hyperdbg/script-engine/code/script-engine.c:521-1459 | stack balance and backpatching of every statement in every surrounding stack: the stack is unchanged but for the addresses of its own breaks, inserted just above the innermost loop marker; the code is the address-explicit one; and it fails exactly when the conditions fail |
| Compilation.BranchesGenerate | hyperdbg/script-engine/code/script-engine.c:883-936 | the elsif and else branches of an `if`, with the pending jumps of the branches before them |
| Compilation.PrintfGenerates | hyperdbg/script-engine/code/script-engine.c:591-711 | printf: arguments in source order, the count of conversion specifications against the count of arguments, and all argument temporaries given back |
| Refinement.ExprGenerates | hyperdbg/script-engine/code/script-engine.c:802-828 | every expression compiles to its postorder code with the destination on top of the stack, or fails exactly when a name is unresolved or a temporary is missing |
| Refinement.SimpleGenerates | hyperdbg/script-engine/code/script-engine.c:521-559 | assignment, ++ and --: the map of temporaries afterwards is the one before, and a first assignment defines the variable |
| Backpatch.PatchDownAll | hyperdbg/script-engine/code/script-engine.c:921-936 | popping saved addresses down to a marker closes exactly the jumps above it and leaves the stack below untouched |
| Jumps.AllJumpsClosed | hyperdbg/script-engine/code/script-engine.c:856-936 | backpatching is complete: no jump operand of a compiled script is the placeholder, and each is the start of an instruction or the end of the code |
| Escapes.EscapesLand | hyperdbg/script-engine/code/script-engine.c:1318-1459 | for every loop at every depth: its breaks go to the first cell after it, and the continues of a `for` to the first cell of its step code |
| Alignment.RunsAligned | hyperdbg/script-eval/code/ScriptEngineEval.c:1467-1494 | decode alignment: compiled code is a row of whole instructions, and on every run the index is the start of one of them or the end |
| Alignment.ExecuteConsumes | hyperdbg/script-eval/code/ScriptEngineEval.c:214-1494 | the machine consumes exactly the cells of an instruction, printf's string and arguments included, unless it jumps or reports an error |
| Temps.RunSound | hyperdbg/script-engine/code/script-engine.c:802-845 | over every run of any semantic rules: the temporaries on the operand stack have pairwise different ids, and their slots are marked |
| Temps.DestinationIsNew | hyperdbg/script-engine/code/common.c:472-496 | the slot taken for a new destination is never that of an operand still on the stack |
| Temps.ExprFitsIff | hyperdbg/script-engine/code/common.c:472-510 | an expression gets its temporaries if and only if its peak fits beside the slots taken |
| TempsNeeded.StmtOkCount | hyperdbg/script-engine/code/common.c:472-510 | exact temporaries of every statement: it compiles if and only if names and jumps are right and its peak fits, and it then keeps exactly its leak |
| TempsNeeded.CompilesIffFits | hyperdbg/script-engine/code/common.c:472-496 | the same for the generator: a script compiles if and only if it is safe, well named and its peak fits in the free slots |
| TempsNeeded.TempsKeptIff | hyperdbg/script-engine/code/script-engine.c:560-571 | the map after a statement equals the map before it if and only if the statement has no print-like call or `for` condition with a compound operand |
| TempsNeeded.PeakWithinHeight | hyperdbg/script-engine/code/script-engine.c:811-823 | an expression of height h has at most h + 1 temporaries live at once |
| TempsNeeded.ChainPeak | hyperdbg/script-engine/code/script-engine.c:811-823 | a left-associated chain of any length has at most two temporaries live at once |
| TempsNeeded.HeightSuffices | hyperdbg/script-engine/code/common.c:474-488 | from an empty map every expression of height at most 127 compiles |
| TempsNeeded.HeightBoundIsTight | hyperdbg/script-engine/code/common.c:474-488 | the complete expression of height 128 does not compile |
| TempsNeeded.LeakAddsUp | hyperdbg/script-engine/code/script-engine.c:1124-1158 | a statement that leaks one temporary can be repeated exactly 129 minus its peak times before the list is full |
| Generator.CodeGenerator.NewTemp | hyperdbg/script-engine/code/common.c:472-496 | takes the first free slot, or sets the list-full error and takes none |
| Generator.CodeGenerator.FreeTemp | hyperdbg/script-engine/code/common.c:502-510 | frees the slot of a temporary and nothing for other tokens |
| Generator.CodeGenerator.CleanTempList | hyperdbg/script-engine/code/common.c:516-526 | frees every slot |
| Generator.CodeGenerator.Mov | hyperdbg/script-engine/code/script-engine.c:521-559 | pops value and place, defines an unresolved variable, emits three cells, frees both operands |
| Generator.CodeGenerator.ReportOperand | hyperdbg/script-engine/code/script-engine.c:560-571 | pops and emits the operand of a print-like call without freeing it |
| Generator.CodeGenerator.UnaryOperator | hyperdbg/script-engine/code/script-engine.c:572-590 | takes the destination before the operand is freed |
| Generator.CodeGenerator.BinaryOperator | hyperdbg/script-engine/code/script-engine.c:802-828 | right operand first, destination taken before either operand is freed |
| Generator.CodeGenerator.OneOperand | hyperdbg/script-engine/code/script-engine.c:829-845 | increment and decrement |
| Generator.CodeGenerator.JumpIfZero | hyperdbg/script-engine/code/script-engine.c:856-882 | an open jump; the address after it is saved |
| Generator.CodeGenerator.JumpToEnd | hyperdbg/script-engine/code/script-engine.c:883-920 | closes the pending jump just past a new open one |
| Generator.CodeGenerator.CloseJumps | hyperdbg/script-engine/code/script-engine.c:921-936 | the loop that pops saved addresses down to a marker and points their jumps at one target |
| Generator.CodeGenerator.EndOfIf | hyperdbg/script-engine/code/script-engine.c:921-936 | closes all jumps to the end of the `if` |
| Generator.CodeGenerator.StartOfWhileCommands | hyperdbg/script-engine/code/script-engine.c:950-986 | an open jump whose operand address is saved below the start of the loop |
| Generator.CodeGenerator.EndOfWhile | hyperdbg/script-engine/code/script-engine.c:987-1032 | jumps back and closes the condition's jump and the breaks |
| Generator.CodeGenerator.EndOfDoWhile | hyperdbg/script-engine/code/script-engine.c:1046-1107 | jumps back when the condition is not zero and closes the breaks |
| Generator.CodeGenerator.ForIncDec | hyperdbg/script-engine/code/script-engine.c:1124-1198 | the jump out and the jump over the step; stops at an unresolved condition |
| Generator.CodeGenerator.StartOfForCommands | hyperdbg/script-engine/code/script-engine.c:1199-1258 | jumps back to the condition and closes the jump over the step |
| Generator.CodeGenerator.EndOfFor | hyperdbg/script-engine/code/script-engine.c:1259-1317 | jumps to the step and closes the condition's jump and the breaks |
| Generator.CodeGenerator.BreakLoop | hyperdbg/script-engine/code/script-engine.c:1318-1395 | saves the break above the innermost loop marker and puts the tokens set aside back |
| Generator.CodeGenerator.ContinueLoop | hyperdbg/script-engine/code/script-engine.c:1396-1459 | jumps to the step of the innermost `for`; when only the saved address was set aside, its slot is pushed once more |
| Generator.CodeGenerator.PushBack | hyperdbg/script-engine/code/script-engine.c:1369-1380 | the loop that pushes back what was set aside runs at least once and rereads the first slot of an emptied list |
| Generator.CodeGenerator.PopArguments | hyperdbg/script-engine/code/script-engine.c:594-617 | pops the arguments down to the marker, freeing each, and stops at the first unresolved one |
| Generator.CodeGenerator.MatchFormat | hyperdbg/script-engine/code/script-engine.c:657-709 | accepts exactly as many arguments as the format has conversion specifications |
| Generator.CodeGenerator.Printf | hyperdbg/script-engine/code/script-engine.c:591-711 | the whole printf rule |
| Generator.CodeGenerator.CodeGen | hyperdbg/script-engine/code/script-engine.c:487-1505 | every rule whose effect is defined has exactly that effect on stack, code, temporaries, identifiers and error |
| Generator.CodeGenerator.Parse | hyperdbg/script-engine/code/script-engine.c:255-470 | runs the actions of a script up to the first error, after which the temporaries are cleaned |
| ScriptMachine.Interpreter.Value | hyperdbg/script-eval/code/ScriptEngineEval.c:82-134 | reads a variable, number, register or temporary |
| ScriptMachine.Interpreter.Store | hyperdbg/script-eval/code/ScriptEngineEval.c:144-200 | writes a variable, temporary or register and ignores other cells |
| ScriptMachine.Interpreter.Binary | hyperdbg/script-eval/code/ScriptEngineEval.c:471-944 | fetches two operands and a destination, second operand on the left; a zero divisor is an error |
| ScriptMachine.Interpreter.Branch | hyperdbg/script-eval/code/ScriptEngineEval.c:1414-1454 | jumps on zero or not zero, the target cut to the 32-bit index |
| ScriptMachine.Interpreter.Print | hyperdbg/script-eval/code/ScriptEngineEval.c:1467-1494 | skips the cells of the string, reads the count and that many values |
| ScriptMachine.Interpreter.Step | hyperdbg/script-eval/code/ScriptEngineEval.c:214-1494 | one instruction does exactly what the step function says |
| ScriptMachine.Interpreter.Drive | hyperdbg/hprdbghv/code/debugger/core/Debugger.c:1256-1275 | the driver's loop over instructions, stopping at an error or outside the code |
| Session.CompileScript | hyperdbg/script-engine/code/script-engine.c:255-470 | one more script of a session: succeeds if and only if it is well named and fits beside the temporaries leaked so far; a failure gives all temporaries back |
| Session.RunScript | hyperdbg/hprdbghv/code/debugger/core/Debugger.c:1230-1278 | from statements to effects on the tables: a run that has ended left what the script means, one that has not is at an instruction |
| Words.BinaryValue | hyperdbg/script-eval/code/ScriptEngineEval.c:471-944 | 64-bit arithmetic, comparison, shift and bitwise values; none exactly for a zero divisor |
| Words.BitwiseBits | hyperdbg/script-eval/code/ScriptEngineEval.c:471-583 | bit i of a bitwise result is the operator on bits i of the operands |
| ShippedScript.AcceptedMeansScript | hyperdbg/script-engine/code/script-engine.c:256-476 | from tokens to effects, with the shipped tables: when the machine halts on the code of any accepted text, variables, registers and output are those of the script the text's derivation tree reads as, and it halts with an error exactly when that script divides by zero |
| ShippedScript.AcceptedIsScript | hyperdbg/script-engine/code/script-engine.c:317-450 | accepted text is the yield of a derivation tree of the shipped grammar, the tree reads as a statement, and the generator has ended exactly as that statement's compilation does |
| Ll.DriverSound | hyperdbg/script-engine/code/script-engine.c:317-450 | over any coherent table and any shift/reduce tables: accepted tokens are the yield of a derivation tree of the start symbol whose every row is the one the table names for the first token below it, and the pushes and rules performed, those of the inner driver included, are the tree's from left to right |
| Ll.RunExplained | hyperdbg/script-engine/code/script-engine.c:317-450 | the same at every moment of an accepting run: the items on the stack grow into trees that yield the rest of the input and perform all that is still performed |
| Ll.ConditionTree | hyperdbg/script-engine/code/script-engine.c:332-360 | a boolean expression handed over and accepted contributes a parse tree's postorder and consumes its tokens and the one that closes it |
| Reading.StmtActs | hyperdbg/script-engine/code/parse-table.c:139-275 | whatever a derivation tree is read as, its actions from left to right are the actions of that statement: if, elsif, else, while, do, for, assignments, calls and printf |
| Reading.ExprActs | hyperdbg/script-engine/code/parse-table.c:212-270 | operator tails of one precedence level read as left-associated expressions, with the actions in postorder |
| ShippedGrammar.StatementsCoherent | hyperdbg/script-engine/code/parse-table.c:526-562 | every entry of the shipped table, 34 nonterminals by 73 terminals, is a row of its nonterminal |
| ShippedRows.ReadsSequence | hyperdbg/script-engine/code/parse-table.c:139-275 | every tree of the shipped grammar within the model reads as a statement |
| ShippedTidy.UnspoiledIsTidy | hyperdbg/script-engine/code/parse-table.c:139-275 | a tree whose actions do not stop the generator is within the model: no foreign built-in in statements or conditions, operands where operands are pushed |
| ShippedTidy.UnspoiledHasNoBareStep | hyperdbg/script-engine/code/parse-table.c:202-210 | and none of its `for` headers ends in a bare l-value |
| ShippedTidy.BareSpoils | hyperdbg/script-engine/code/parse-table.c:202-210 | a `for` header that ends in a bare l-value leaves its operand just before the rule that expects an address |
| ShippedTidy.SpoiledStops | hyperdbg/script-engine/code/script-engine.c:1199-1258 | no generator state gets through such actions |
| ShippedTidy.PushCell | hyperdbg/script-engine/code/parse-table.c:526-562 | the table names a row that pushes an operand only for the very kind of token the row pushes, which is why the unchecked push is right |
| ScriptParser.ParseScript | hyperdbg/script-engine/code/script-engine.c:256-476 | the whole loop, cut off after a number of rounds, is the driver of the theorems; an error gives all temporaries back |
| ScriptParser.Round | hyperdbg/script-engine/code/script-engine.c:317-450 | one round of the loop |
| ScriptParser.ReadCondition | hyperdbg/script-engine/code/script-engine.c:332-360 | the boolean expression goes to the other driver, and one more token is skipped |
| ScriptParser.PushRow | hyperdbg/script-engine/code/script-engine.c:381-393 | a row is pushed last item first |
| Lalr.DriverSound | hyperdbg/script-engine/code/script-engine.c:1611-1722 | over any coherent tables and any number of rounds: the driver never leaves its tables or its stack, and when it accepts, the whole input is the yield of a parse tree of the start symbol and the pushes and rules performed are exactly that tree's postorder |
| Lalr.RoundKeeps | hyperdbg/script-engine/code/script-engine.c:1611-1722 | the invariant of one round: the stack spells trees of the grammar, each under a state that knows how the symbols below it end |
| ShippedTables.ShippedCoherent | hyperdbg/script-engine/code/parse-table.c:1223-1588 | the shipped action and goto tables, all 180 states, are coherent with the shipped rules |
| ShippedParser.ShippedDriverSound | hyperdbg/script-engine/code/script-engine.c:1611-1722 | so the driver with the shipped tables is sound: what it accepts is the yield of a parse tree of the shipped grammar, and it has performed that tree's postorder |
| ShippedParser.ShippedEvaluates | hyperdbg/script-engine/code/script-engine.c:1611-1722 | and accepted text without built-ins outside the model evaluates as the expression its parse tree stands for |
| ShippedParser.RowsAreShaped | hyperdbg/script-engine/code/parse-table.c:1004-1075 | every shipped rule is an expression rule or calls a built-in outside the model |
| Parsing.TreeIsExpression | hyperdbg/script-engine/code/parse-table.c:1004-1075 | the postorder of a parse tree is the postorder of the expression it stands for, whenever it stands for one |
| Parsing.PlainTreeReads | hyperdbg/script-engine/code/parse-table.c:1004-1075 | a parse tree of expression rules over operands of the model stands for an expression |
| Parsing.AcceptedIsExpression | hyperdbg/script-engine/code/script-engine.c:1611-1722 | accepted text has been compiled as exactly the expression its parse tree stands for |
| Parsing.AcceptedEvaluates | hyperdbg/script-engine/code/script-engine.c:1611-1722 | running the cells emitted for accepted text leaves that expression's value in the operand on top, or stops at a division by zero |
| Parsing.NeverUndefined | hyperdbg/script-engine/code/script-engine.c:1611-1722 | on an expression grammar the generator always finds the operands it pops |
| Parsing.PopEntries | hyperdbg/script-engine/code/script-engine.c:1674-1693 | the popping loop pushes the operands among the popped tokens, last token first |
| Parsing.ReduceBy | hyperdbg/script-engine/code/script-engine.c:1667-1721 | a reduction: pop, perform, look up, push |
| Parsing.Round | hyperdbg/script-engine/code/script-engine.c:1611-1722 | one round of the driver's loop |
| Parsing.ParseExpression | hyperdbg/script-engine/code/script-engine.c:1562-1734 | the whole loop, cut off after a number of rounds, is the driver of the theorems |
| Ini.RoundTripIff | hyperdbg/hprdbgctrl/header/inipp.h:189-244 | reading undoes writing, without errors, if and only if the sections are well formed |
| Ini.NormalForm | hyperdbg/hprdbgctrl/header/inipp.h:189-244 | for every text, writing what was read and reading it again gives the same sections and no errors |
| Ini.ParseIsWellFormed | hyperdbg/hprdbgctrl/header/inipp.h:203-244 | whatever the text: section names are one line, sections are not empty, variables are trimmed, without `=` and start with neither `;` nor `[`, values are trimmed |
| IniFile.LeftTrim | hyperdbg/hprdbgctrl/header/inipp.h:46-53 | drops leading white space |
| IniFile.RightTrim | hyperdbg/hprdbgctrl/header/inipp.h:55-61 | drops trailing white space |
| IniFile.Settings.Take | hyperdbg/hprdbgctrl/header/inipp.h:212-243 | one trimmed line: comment, section, assignment or error; the first assignment stands |
| IniFile.Settings.Read | hyperdbg/hprdbgctrl/header/inipp.h:203-244 | the loop over lines |
| IniFile.Settings.Write | hyperdbg/hprdbgctrl/header/inipp.h:189-201 | the loops over sections and variables in key order |
| Max311.WholeRun | hyperdbg/kdserial/spimax311.c:436-938 | over any calls and any replies of the device: the words delivered followed by those waiting are the received words in order, without exactly those that arrived while 1023 were waiting, and callers were told the bytes and errors of the words delivered, in that order |
| Max311.CallAccounts | hyperdbg/kdserial/spimax311.c:481-938 | each entry point keeps that account |
| Max311.Driver.BufferData | hyperdbg/kdserial/spimax311.c:436-452 | the ring appends to the queue, or drops when 1023 are waiting |
| Max311.Driver.Collect | hyperdbg/kdserial/spimax311.c:481-503 | the drain loop buffers replies up to the first without data |
| Max311.Driver.TxEmpty | hyperdbg/kdserial/spimax311.c:455-516 | drains, then tells whether the transmitter is empty |
| Max311.Driver.GetByteCall | hyperdbg/kdserial/spimax311.c:739-784 | the oldest waiting word, or a word straight from the device, with its error flag |
| Max311.Driver.PutByteCall | hyperdbg/kdserial/spimax311.c:813-868 | waits or gives up, writes, and drains what came in meanwhile |
| Max311.Driver.RxReadyCall | hyperdbg/kdserial/spimax311.c:905-938 | drains, then tells whether anything waits |
| Msm8974.WholeRun | hyperdbg/kdserial/msm8974.c:451-533 | over any calls in which the counters do not wrap: the bytes handed out and queued are packet after packet the words read, lowest byte first, each packet cut to max(snapshot, 4 * (words - 1)) bytes; never more than four are queued |
| Msm8974.ExactIffInLastWord | hyperdbg/kdserial/msm8974.c:498-512 | a packet hands out exactly its snapshot if and only if the snapshot lies in its last word |
| Msm8974.Receiver.GetByte | hyperdbg/kdserial/msm8974.c:451-533 | one call on the static fields, with the 32-bit sums written out |
| Sdm845.RunAccounts | hyperdbg/kdserial/sdm845.c:1233-1297 | over any calls: the bytes handed out and those left are the copied blocks in order, none over 128 bytes, and no block is copied before the last is used up |
| Sdm845.BlockIsCounted | hyperdbg/kdserial/sdm845.c:1246-1267 | an accepted block has exactly the counted bytes, it is accepted if and only if it fits, and a wrapped word count is never accepted |
| Sdm845.Receiver.CopyWords | hyperdbg/kdserial/sdm845.c:1270-1278 | whole words, lowest byte first |
| Sdm845.Receiver.CopyPartial | hyperdbg/kdserial/sdm845.c:1280-1288 | the valid bytes of the last word |
| Sdm845.Receiver.Refill | hyperdbg/kdserial/sdm845.c:1233-1289 | copies a block when it fits, otherwise leaves the buffer empty |
| Sdm845.Receiver.GetByte | hyperdbg/kdserial/sdm845.c:1222-1301 | serves the block byte by byte before any refill |
| SymbolBuffer.Buffer.PushSymbol | hyperdbg/script-engine/code/script-engine.c:1918-2006 | refines appending: everything stored before stays where it is, the new symbol is stored after it, and a free cell always follows |
| SymbolBuffer.Buffer.PlaceText | hyperdbg/script-engine/code/script-engine.c:1927-1970 | a string of any length finds room after doubling |
| SymbolBuffer.Buffer.PlacePlain | hyperdbg/script-engine/code/script-engine.c:1971-2003 | a plain symbol, doubling when the buffer became full |
| SymbolBuffer.ImageFits | hyperdbg/script-engine/code/script-engine.c:1757-1766 | a string and its terminator fit in the (8 + length) / 16 + 1 cells reserved |
| SymbolBuffer.StringReadsBack | hyperdbg/script-engine/code/script-engine.c:1774-1779 | a stored string reads back whole and takes the cells counted when it was pushed |
| RegisterViews.ViewsReadLastWrites | hyperdbg/script-eval/code/Regs.c:27-121 | after any writes of any views, every view reads the overlay of the last writes to its bytes, with zeros above |
| RegisterViews.RegisterIs | hyperdbg/script-eval/code/Regs.c:966-1059 | a register is the word whose bytes are the last writes |
| RegisterViews.OthersUnchanged | hyperdbg/script-eval/code/Regs.c:1112-1349 | a register that no write names is unchanged |
| Numbers.AddressesSurvive | hyperdbg/script-engine/code/script-engine.c:872-875 | every 64-bit number survives decimal and hexadecimal printing and reading |
| Numbers.DecimalRoundTrip | hyperdbg/script-engine/code/common.c:998-1011 | reading the decimal printing of any number gives it modulo 2^64 |
| Numbers.HexRoundTrip | hyperdbg/script-engine/code/common.c:1053-1078 | the same in hexadecimal, in either case |
| Numbers.DecimalToInt | hyperdbg/script-engine/code/common.c:998-1011 | the accumulating loop |
| Numbers.HexToInt | hyperdbg/script-engine/code/common.c:1053-1078 | the accumulating loop |

## Left out

- Scanner: tokens are inputs, with the terminal they count as and the operand they carry.  How a terminal compares with a token, and how many tokens a boolean expression has, are arbitrary functions.
- Which texts the two parsers accept: only what follows from acceptance is claimed.
- Completeness of the shipped LALR tables: the rules for `||` and `&&` are ambiguous, so only soundness is claimed.
- A `for` header whose last part is a bare l-value: the source goes on with an operand for an address, the model stops there as undefined.
- Memory, event, spinlock and interlocked built-ins, pseudo-registers, the stack pointer, segment, flag and control registers: they call code outside the model, or change the guest.  The model's parsers stop as undefined at their rules.
- printf format positions, and the text that print-like calls show: an event records the operation and its values.
- Shift counts of 64 and more are undefined in the source; the model takes them modulo 64, as x86 does.
- The user-mode machine skips a cell that is no operator; the model calls it wild, and no compiled script reaches it.
- Error messages, heap ownership and freeing.
- Script code of 2^31 cells and more, and more than 512 variables: the source's index and tables end there, and the correctness theorems ask for less.
- Parsing.ParseExpression: stops after a given number of rounds, because termination depends on the tables; and asks that no built-in outside the model is called.
- ScriptParser.ParseScript: stops after given numbers of rounds of the two loops, and asks that nothing undefined is reached.
- ScriptMachine.Interpreter.Drive: stops after a given number of rounds, because a script need not end; and asks that no round is wild, which `Correctness.NeverWild` gives for all compiled code.
- Generator.CodeGenerator.CodeGen: says nothing where the source's effect is undefined, and after a failure it fixes only the error and the identifiers.
- SymbolBuffer.Buffer.PushSymbol: sizes are not cut to the source's `int`.
- INI interpolation, default sections and trailing comments, and formats other than the default one.
- Serial initialisation, baud rates and the transmit side, but for the bytes MAX311x `PutByte` writes; device registers are inputs of each call, and after its recorded replies the MAX311x device is idle.
- Msm8974.WholeRun: asks that no packet is so long that the 32-bit counters wrap.
- Sdm845.RunAccounts: asks for the register fields' ranges, with at most four bytes in a partial word.
- The other UART drivers, which repeat these or poke registers.
