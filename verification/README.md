# IFJ23: a verified model of the compiler's core

IFJ23 compiles a subset of Swift to IFJcode23 stack code in one pass. This project models its five connected parts
and proves what they are for. Verify with `dafny verify dfyconfig.toml`.

- **Expression compiler** (`Tokens`, `Scopes`, `CodeGen`, `Semantics`, `Precedence`, `ExprParser`). The table-driven
  shift/reduce machine, with flags on terminals as handles, is a function from state to state (`Precedence.Pass`); each
  reduction checks types, inserts conversions and emits code (`Semantics`). The class `ExprParser` performs the same in
  place. On it stand the grammar theorems (`Grammar`, `Completeness`, `Sentences`, `Soundness`, `Lines`, `AfterBang`
  with `Unwrapped`, `Unambiguity`, `Termination`, `Anomalies`), meaning and correctness of the code on a stack machine
  with global, local and temporary frames and a call stack (`Machine`, `Execution`, `Meaning`, `Correctness`), type
  soundness (`Typing`), names (`Naming`, `Shadowing`), the labels of expression code (`ExprLabels`), where calls of the
  expression parser can end (`Straying`, `Shapes`) and when their result can be a function (`FunctionTypes`).
- **Symbol table** (`Primes`, `Probing`, `Tables`, `Resizing`, `TableRuns`, `SymTable`, `ScopeStack`). Open
  addressing with tombstones and a list of prime sizes. The offset of the k-th read is the k-th triangular number
  times the step, so a probe sees only half of the table; the proofs go through Euclid's lemma, a pigeonhole argument
  and a probe-chain invariant to the refinement of a finite map. The classes work on an array of shared records.
- **Code generator** (`Hoisting`, `StraightLine`, `HoistedRuns`, `Calls`, `CallRuns`). Declarations leave loops through
  a print buffer; calls pass arguments through numbered slots of a temporary frame.
- **Recursive-descent parser** (`Labels`, `Headers`, `Arguments`, `Symbols`, `Rules`, `Blocks`, `Programs`, `Extents`,
  `Parsing`, `Impostors`, `StatementRuns`). Two passes over the token buffer; every rule's contract says what it does to
  the cursor, the symbol tables, the counters and the labels, and the argument rules' contracts which arguments they
  have read and passed. `Arguments` is the reference for those: headers and argument lists as functions of the token
  list. `Extents` is the reference for where rules end, `Symbols` for what they do to the tables, and `StatementRuns`
  for what their code does when it runs. Guards look at the types of items, as the code does; wherever an expression
  ends, forwards or backwards, parsing goes on from there.
- **Lexer** (`Lexer`, `Indentation`, `LexRoundTrip`). A character automaton with one unread character, run in place by
  the class `Lexer`, and its inverse, a printer.

A tree is *stratified* when it follows the grammar that the precedence table encodes: `??` weakest and
right-associative, then relations nested to the right, then left-associative `+ -`, then left-associative `* /`, then
operands, `!` after an operand, and parentheses.

## What the code does not do

Each of these is a theorem about the code as it is. Where a family of inputs is named, the condition under which the
code does meet the property is proved beside it.

- `a!(b)` is accepted although it is no sentence. A sentence ending in `!` before a parenthesised one is accepted
  exactly when it is a chain of `!` on an operand or parentheses (`AfterBang.BangParenExactly`).
- A new line ends a sentence on one line that ends in `!`, before a line that starts with an operand, exactly when the
  token after that operand is an operand or `(` on that same line, so before a call but not before an assignment
  (`AfterBang.BangLineExactly`).
- Inside parentheses a `!` chain before a line with a call never returns; outside it always does
  (`Anomalies.LineReturnsOutsideOnly`).
- On a line of its own `a + *`, before a line that starts with an operand, is accepted silently
  (`Anomalies.CutsOperation`).
- A call of the expression parser without an error can step over the keyword `func` (`Anomalies.StepsOverKeyword`,
  `Anomalies.PassesOverKeyword`) or end at or before its start (`Anomalies.ComesBack`). `Straying.ReturnsGood` says
  what it keeps otherwise; sentences and lists on one line never do this (`ExprLabels.SentenceIsGood`,
  `Straying.OneLineStays`). With a brace after every header a program in which this happens is still translated whole,
  or refused (`Extents.EachFunctionOnce`); without one a function can be called and never translated
  (`Impostors.HeaderCalled`).
- An argument label without `:` is accepted but passes nothing; of the calls checked against a header then, and only
  then, the callee's prologue fails (`Arguments.ListValued`, `Arguments.CallArrives`).
- A labelled argument may be a local variable without a value; then, and only then, the generator reads something other
  than the variable that was checked (`Symbols.ArgumentAgreesExactly`).
- A function that can be nil can be made a value, by `f = nil` or by `if let f`, and then be copied: the program can
  call the copy, which has no label (`Impostors.FunctionVariableCalled`, `Impostors.LetCopyCalled`), or call the
  constant of `if let` without arguments, which runs exactly if the header has no parameters
  (`Impostors.LetFunctionCalled`, `Impostors.CopyCallsExactly`).
- `x = nil` is accepted for a variable that can be nil, but nothing is stored and the nil stays on the stack
  (`StatementRuns.NilAssignmentLost`; `StatementRuns.AssignRuns` for all assignments).
- The types promised for results are wrong for parenthesised nilable operands, orderings of nilable operands, a
  nilable right side of `nil ??`, and division of nil or Bool operands; outside these they are right
  (`Typing.OperationSafeExactly`, `Typing.ParenSafeExactly`).
- The load limit of 0.65 does not make probes end (`TableRuns.SeventhNeverEnds`); `Tables.ProbeEnds` says exactly when
  one ends.
- Re-inserting a name whose tombstone is still stored loses it until the next resize
  (`Tables.InsertFindsUnlessStale`, an if-and-only-if).
- In loops, hoisting breaks exactly the calls with arguments (`Calls.LoopCallsExactly`, `Calls.ArgumentsFailInLoops`)
  and assignments to `_` (`StraightLine.DiscardFailsInLoops`).
- Text before the closing quotes of a multi-line string is dropped (`Indentation.DedentsAll`,
  `Indentation.TextBeforeQuotesDropped`).
- A function named `END_x` beside a function `x` makes the output ambiguous (`Labels.ClashCounts`). Where a brace
  follows every header (`Headers.Braced`) and no function that can be nil stands before `=` or after `if let`
  (`Arguments.Untouched`), both of which can be read off the tokens, nothing else does (`Parsing.Parser.Parse`); the
  inputs in `Impostors` show why both are asked for.

## Model

| member | source | states |
|---|---|---|
| `Lines.AcceptsExactlyLines` | src/expression.c:795-881 | Anywhere in a program, for an expression on one line without `!` directly before `(`, ended by an end marker (on that line or not) or by a line that starts with an operand or `(`: the call returns without an error if and only if the tokens are a well-typed sentence of the stratified grammar |
| `Lines.ReadsLine` | src/expression.c:808-881 | Such a call that reports no error has consumed exactly the line's tokens and its outcome (cursor, current token, code, ids, result) is that of the post-order actions of a tree spelling them |
| `Lines.LineIsGood` | src/expression.c:795-881 | Such a call moves the cursor forward over no `func`, draws its labels from its own range of condition ids, defines each once and jumps nowhere else: what the statement parser relies on |
| `Soundness.AcceptsExactlySentences` | src/expression.c:65-76 | On every token list without line starts and without `!(`: the table-driven loop ends without an error exactly when a well-typed sentence stands before an end marker |
| `Soundness.ReturnsSentence` | src/expression.c:795-881 | An error-free call has read a sentence, and its whole outcome is that of the tree's post-order actions |
| `Soundness.PassKeepsSound` | src/expression.c:808-851 | The local stack invariant (each symbol carries its tree, neighbours fit the precedence levels, the yields are the tokens read) survives every pass that records no error |
| `Soundness.ConflictDiagnosed` | src/expression.c:659-745 | Above a sound stack every empty table cell leads to a handle that the diagnosis reports |
| `Sentences.SentenceReturns` | src/expression.c:795-881 | Every sentence before an end marker is read to its end, whatever follows, doing exactly its tree's actions in post-order |
| `Sentences.LineReturns` | src/expression.c:825-870 | A sentence ending in an operand or `)` also ends before a line that starts with an operand or `(`: same cursor, same code, same result as before an end marker |
| `Sentences.ReturnsOnce` | src/expression.c:808-851 | A call has at most one outcome |
| `Completeness.ParseTree` | src/expression.c:808-851 | A tree in a context its level allows, before a token that may follow it, is parsed into the one symbol its actions give, the stack below untouched |
| `Unambiguity.OneTree` | src/expression.c:65-76 | A token list has at most one tree in the grammar that the table encodes |
| `Unambiguity.AcceptedUnique` | src/expression.c:621-657 | A call accepts at most one tree: its reductions are the post-order of the only reading |
| `Termination.CallStops` | src/expression.c:808-851 | Every call on a token list without line starts returns, syntax errors included |
| `Termination.PassShrinks` | src/expression.c:427-443 | Each pass lowers (tokens left, stack size, terminals, flags) lexicographically and keeps the top symbol from being a flagged terminal |
| `AfterBang.BangLineExactly` | src/expression.c:261-293 | A sentence on one line that ends in `!`, before a line starting with an operand: the call returns without an error if and only if the token after that operand is an operand or `(` that starts no line (as where the next statement is a call) and the sentence is well-typed; it has then done exactly the sentence's actions |
| `AfterBang.BangParenExactly` | src/expression.c:808-861 | A sentence ending in `!`, then a parenthesised sentence, on the same line or the next, then an end marker: accepted if and only if the first is a chain of `!` on an operand or parentheses and both are well-typed; the call then does the actions of both and keeps the second result |
| `AfterBang.SentenceHasNoBangParen` | src/expression.c:65-76 | No sentence has `!` directly before `(` |
| `Anomalies.LineReturnsOutsideOnly` | src/expression.c:825-851 | A `!` chain inside m opening parentheses, before a line on which a call stands: the call returns if and only if m is 0 |
| `Anomalies.LineInParenthesesDiverges` | src/expression.c:825-851 | Inside parentheses there is no outcome at all, whatever the chain and whatever follows on the next line |
| `Anomalies.CutsOperation` | src/expression.c:659-761 | On a line of its own, `a + *` before a line with an operand is accepted with the type of `a` alone, after the code of both operands has been emitted |
| `Anomalies.StepsOverKeyword` | src/expression.c:261-293 | An accepted expression can end behind the keyword `func` of a well-formed header, the name starting a line or not, with no type at all |
| `Anomalies.PassesOverKeyword` | src/expression.c:659-761 | `( a ! ( b ) func )` is accepted: the keyword is dropped inside an expression |
| `Anomalies.ComesBack` | src/expression.c:280-293 | For n unfinished parts, each stepping the cursor back, a call without an error ends at its start plus 2 - n: it does not advance exactly when n is 2 or more |
| `Straying.PassesNoFunc` | src/expression.c:795-881 | Where every `func` is followed by a name and `(`, as after the first pass, no call that reports no error passes a `func` except with its very last step |
| `Straying.ReturnsGood` | src/expression.c:795-881 | For every such call, whatever its tokens: its code keeps to its own labels and calls nothing, and it strays (ends at or before its start, or directly behind a `func`) exactly when it does not move forward over tokens free of `func` |
| `Straying.OneLineStays` | src/expression.c:795-881 | On a token list without line starts no call that reports no error strays |
| `Shapes.EndUnique` | src/expression.c:795-881 | Two calls on the same tokens from the same place end at the same place, whatever the symbol tables, types, errors and unset values |
| `Shapes.ReturnsAlike` | src/expression.c:808-851 | Whether a call returns at all is decided by the tokens alone |
| `Shapes.ReturnsOnCursor` | src/expression.c:795-881 | A call that returns leaves the cursor in the buffer and the current token under it, however far it has stepped back |
| `FunctionTypes.ResultOrdinary` | src/expression.c:883-1168 | Where no variable that may be read has the type of functions, no expression has it either |
| `Precedence.TopTerminal` | src/expression.c:399-412 | The index of the topmost terminal, -1 exactly when there is none |
| `ExprParsing.PassKeepsBottom` | src/expression.c:213-225 | No pass ever removes or changes the initial `$` |
| `Meaning.FoldEmits` | src/expression.c:883-1167 | Without an error the reductions of a tree append exactly the compiled code of its elaborated expression (operators chosen and conversions inserted by the checker), drawing exactly its label ids |
| `Correctness.CompileRuns` | src/code_generator.c:332-404 | From any machine state in which the expression has a value, its code pushes that value and leaves the rest of the stack, the frames and all program variables as they were |
| `Correctness.ExprCodeRuns` | src/expression.c:795-1167 | Compiler correctness: wherever the code of an accepted expression stands, with its own labels, running it pushes the value the tree means, integer literals promoted as the checker decided; identifiers contain no `?`, as the lexer makes them |
| `Correctness.AcceptedEmits` | src/expression.c:835-881 | An accepted call appends exactly that code and reserves exactly the label ids it uses |
| `Correctness.OperatorRuns` | src/code_generator.c:332-360 | The instructions of an operator compute it, the negated comparisons included |
| `Correctness.ConcatRuns` | src/code_generator.c:392-404 | String concatenation replaces the top two strings by their concatenation, in order |
| `Execution.Int2DoublesRuns` | src/code_generator.c:483-499 | For every depth the conversion changes exactly the integer at that depth, and neither the local frames nor the global frame |
| `Execution.NilCheckRuns` | src/code_generator.c:362-390 | The nil check replaces the top two values a, b by a, or by b when a is nil, and touches nothing else |
| `Typing.TypesSound` | src/expression.c:883-1242 | Type soundness: with variables of their declared types, an accepted guarded expression is never applied to a wrongly tagged operand and its value suits the type of its result symbol |
| `Typing.OperationSafeExactly` | src/expression.c:915-1183 | An accepted binary operation is safe for all operand values if and only if its guard holds: the guard excludes nilable operands of an ordering, a nilable right side of `nil ??`, division of nil or Bool operands |
| `Typing.ParenSafeExactly` | src/expression.c:1160-1168 | Parentheses keep the promise of the type exactly when nothing nilable stands inside |
| `Typing.TameNoTrap` | src/code_generator.c:332-390 | Evaluation traps only on unwrapping a nil or on dividing |
| `Typing.MeansTyped` | src/expression.c:835-881 | The value of an accepted guarded expression has the type the call returns, after the literal promotion for a double variable |
| `Typing.ExpressionRuns` | src/expression.c:795-881 | Correctness and soundness together: an accepted, guarded expression that unwraps no nil and divides nothing runs to its end and leaves one value of the returned type above an untouched stack |
| `Naming.NamesAgree` | src/expression.c:295-344 | Whenever the checker passes a variable, the frame and uid that the generator prints are those of the checked item: inner uninitialised namesakes hide nothing and an initialiser does not see its own variable |
| `Naming.LeadsVisible` | src/parser.c:166-206 | After every run of declarations a definition, with or without a type, and an assignment make the assigned variable the one that its name denotes: definitions go to the innermost scope in bodies and to the global table outside; the lookup of an assignment is at lines 87-101 |
| `Naming.StatementNamesAgree` | src/parser.c:68-101 | In every definition, assignment and condition after any run of declarations, the generator reads exactly the variable that the checker accepted |
| `Shadowing.ReachableApart` | src/symtable.c:120-145 | After any run of opening and closing scopes, declaring, removing and updating items, uids are unique across all tables and below the counter |
| `Shadowing.RunKeepsApart` | src/symtable.c:120-145 | On every run uids stay unique, and a uid that no item has any more never comes back |
| `Shadowing.ShadowedApart` | src/code_generator.c:41-126 | After any run, reads of one name inside and outside scopes that shadow it go to different places |
| `Shadowing.ClosedNeverRead` | src/scope.c:42-61 | Once a scope is closed, no later read under any name goes to a place of its variables |
| `ExprParsing.ExprParser.Expr` | src/expression.c:795-881 | The in-place parser returns the outcome of the pass function iterated until it halts, on an emptied stack |
| `ExprParsing.ExprParser.OnePass` | src/expression.c:808-851 | One turn of the loop performs exactly one pass: equal shift, shift, reduce, or conflict with its new-line case |
| `ExprParsing.ExprParser.PassUntilEnd` | src/expression.c:808-851 | The do-while loop iterates passes until the terminal on top and the current token are both end markers |
| `ExprParsing.ExprParser.MoveExprToArr` | src/expression.c:138-154 | Pops up to the closest flag, the bottom or three symbols, in reversed order, and unflags the symbol below |
| `ExprParsing.ExprParser.Reverse` | src/expression.c:156-172 | Reverses the symbol array by swapping its ends |
| `ExprParsing.ExprParser.ClosestTerminal` | src/expression.c:399-412 | Finds the topmost terminal |
| `ExprParsing.ExprParser.FindClosestEol` | src/expression.c:261-278 | Tells exactly whether some stack symbol starts a line |
| `ExprParsing.ExprParser.ReduceToEol` | src/expression.c:280-293 | Pops down to the topmost line start, stepping the cursor back once for each symbol popped |
| `ExprParsing.ExprParser.IdIsDefined` | src/expression.c:295-344 | Resolves an identifier as specified, with the undefined and uninitialised errors |
| `ExprParsing.ExprParser.ConvertIfRetypeable` | src/expression.c:1210-1242 | Converts the literal integer beside a double, at its depth, and reports unconvertible operands |
| `ExprParsing.ExprParser.Int2Doubles` | src/code_generator.c:483-499 | Emits the saving loop, the conversion and the restoring loop for its depth |
| `ExprParsing.ExprParser.ProcessOperand` | src/expression.c:883-913 | The operand action: type, flags, push instruction, errors |
| `ExprParsing.ExprParser.ProcessArithmetic` | src/expression.c:915-994 | The `+ - *` action with its conversions, concatenation and errors |
| `ExprParsing.ExprParser.ProcessDivision` | src/expression.c:996-1029 | The `/` action; a divisor that is no plain number is judged by unset memory |
| `ExprParsing.ExprParser.ProcessRelational` | src/expression.c:1061-1158 | The comparison and `??` action with its label id, conversions, nil cases and errors |
| `ExprParsing.ExprParser.CheckLhsType` | src/expression.c:1190-1208 | Promotes an all-literal integer result assigned to a double variable |
| `Primes.Euclid` | src/symtable.c:158-199 | A prime dividing a product with a smaller positive factor divides the other factor |
| `Primes.TrialDivision` | src/symtable.c:158-199 | Trial division up to a root decides primality of every listed size |
| `Probing.ProbeReach` | src/symtable.c:69-118 | For a prime size and a legal step the probe sequence visits exactly (p + 1) / 2 slots |
| `Probing.ReadRepeats` | src/symtable.c:74-77 | Every read repeats one of the first (p + 1) / 2: the offsets are triangular numbers |
| `Probing.FreeSlotReached` | src/symtable.c:69-80 | With fewer than (p + 1) / 2 slots taken a free slot is found within (p + 3) / 2 reads |
| `Tables.ProbeEnds` | src/symtable.c:82-118 | A probe ends if and only if a slot that stops it is among those it reaches, and then within (n + 3) / 2 reads; otherwise no read ever stops it |
| `Tables.RoomyProbeEnds` | src/symtable.c:97-115 | With fewer than (n + 1) / 2 slots occupied every probe ends |
| `Tables.SearchRefinesMap` | src/symtable.c:82-118 | A search that ends answers exactly as the map of active items does |
| `Tables.PutLinked` | src/symtable.c:207-223 | Filling the first empty slot of a new name's probe keeps every stored name reachable |
| `Tables.BuryLinked` | src/symtable.c:225-236 | A tombstone keeps every stored name reachable |
| `Tables.InsertFindsUnlessStale` | src/symtable.c:207-223 | After re-inserting a name a search finds the new item if and only if no tombstone of that name is stored |
| `Resizing.ResizeKeeps` | src/symtable.c:158-205 | From every listed size but the last, resizing after the load limit is passed is total, keeps the contents, drops the tombstones and makes every probe end |
| `Resizing.MovedKeeps` | src/symtable.c:180-199 | Rehashing is total and keeps the contents while the active items fill less than half the new table |
| `Resizing.NextSizeRoomy` | src/symtable.c:158-205 | When the load first passes 0.65 the items fill at most half of the next listed size |
| `TableRuns.InsertRefinesMap` | src/symtable.c:207-223 | An insertion without a stale tombstone stores exactly when the name is not in the map and changes nothing else, whether or not the table grows |
| `TableRuns.DeleteRefinesMap` | src/symtable.c:225-236 | A deletion removes the name from the map if it was there, and nothing else |
| `TableRuns.InsertEnds` | src/symtable.c:207-223 | An insertion ends whenever fewer than half the slots are occupied |
| `TableRuns.RunRefinesMap` | src/symtable.c:69-236 | Over every run of insertions, deletions and searches that ends and never re-inserts a stored tombstone: the same answers and contents as a map, with both counters exact |
| `TableRuns.FreshRunRefinesMap` | src/symtable.c:34-47 | The same from the initial table and the empty map |
| `TableRuns.SeventhNeverEnds` | src/symtable.c:201-205 | The load limit does not make probes end: with six names sharing a probe path the table of 11 slots is not overloaded, yet inserting or searching a seventh never ends |
| `SymTables.SymTable.GetHash` | src/symtable.c:69-80 | The probing loop returns the first empty slot of the name's probe |
| `SymTables.SymTable.Search` | src/symtable.c:82-118 | The probing loop returns the record the specification finds, or none with the not-found error |
| `SymTables.SymTable.MoveAll` | src/symtable.c:180-199 | Moves the active records into the new array, in slot order, each to its first empty slot |
| `SymTables.SymTable.Resize` | src/symtable.c:158-199 | Replaces the array, the size and both counters as specified |
| `SymTables.SymTable.CheckLoad` | src/symtable.c:201-205 | Resizes exactly when the load exceeds 0.65 |
| `SymTables.SymTable.Insert` | src/symtable.c:207-223 | Performs the specified insertion with a fresh uid, and the already-stored error otherwise |
| `SymTables.SymTable.Delete` | src/symtable.c:225-236 | Leaves a tombstone and counts it, or reports not found |
| `SymTables.Uids.Take` | src/symtable.c:122-145 | Hands out the counter and advances it |
| `ScopeStacks.ScopeStack.AddScope` | src/scope.c:21-40 | Pushes a fresh empty table and leaves the others |
| `ScopeStacks.ScopeStack.PopScope` | src/scope.c:42-61 | Removes exactly the innermost table, or reports the empty stack |
| `ScopeStacks.ScopeStack.SearchScopes` | src/scope.c:86-114 | The walk over the hash tables returns what a lookup through the maps they refine returns |
| `ScopeStacks.ScopeStack.SearchScopesInitializedVar` | src/scope.c:117-150 | The same among initialised items |
| `Hoisting.ClosedOutput` | src/code_generator.c:136-164 | After any balanced nesting of loops nothing is kept back and the output is the hoisted one |
| `Hoisting.LoopOutput` | src/code_generator.c:254-277 | Each outermost loop is written as its declarations in order, then everything else in order |
| `Hoisting.HoistingIsStable` | src/code_generator.c:136-164 | Hoisting loses no line, invents none, and keeps the order of the declarations and of the other lines |
| `Hoisting.Generator.LoopEnd` | src/code_generator.c:254-262 | Closing the outermost loop writes out the buffer; closing an inner one does not |
| `Hoisting.Generator.Defvar` | src/code_generator.c:136-138 | A declaration goes to the output at once |
| `Hoisting.Generator.Generate` | src/code_generator.c:153-164 | A whole list of generator calls, performed in place, gives the specified output and buffer |
| `StraightLine.HoistingKeepsMeaning` | src/code_generator.c:136-164 | Where a straight body runs, its hoisted form runs to the same state, so its declarations can all be made first |
| `HoistedRuns.RunHoists` | src/code_generator.c:136-164 | Hoisting keeps the meaning of code with labels and jumps, through every round of its loops: whatever run the code has from its start (a repeated declaration counting for nothing), the hoisted code has one that ends at the corresponding place with the same stack and the same value in every variable, provided only that its declarations can be made first |
| `HoistedRuns.LoopHoists` | src/code_generator.c:254-277 | The same for what the generator is called with, nested loops included: where the lines in the order of the source run to their end, so do the lines it writes |
| `HoistedRuns.CallsHoist` | src/code_generator.c:153-164 | What the generator writes for such calls is the hoisted form of their lines |
| `StraightLine.SecondRoundFails` | src/code_generator.c:226-229 | A declaration left in its loop would fail in the second round: what hoisting is for |
| `StraightLine.DiscardFailsInLoops` | src/code_generator.c:209-220 | Assigning to `_` drops one value outside loops, and fails in every state once hoisted |
| `Calls.ArgumentsArrive` | src/code_generator.c:418-457 | Calling convention of the generator: for every number of arguments the code before the call, then the prologue, leave the i-th argument in the i-th parameter, in a new local frame, everything else unchanged |
| `Calls.ArgumentsFailInLoops` | src/code_generator.c:418-457 | Inside a loop every call with arguments fails, whatever the state |
| `Calls.LoopCallsExactly` | src/code_generator.c:418-439 | The code around a call that has been hoisted out of a loop runs, from every state, if and only if the call has no arguments |
| `Arguments.ListCount` | src/parser.c:564-706 | An accepted argument list has exactly as many arguments as the item called has parameters: those of its header, or none where the item is a copy of a function |
| `Arguments.ListValued` | src/parser.c:627-706 | In an accepted list the k-th argument has no value exactly when its parameter has a label and the label stands without `:`; every other argument has its value |
| `Arguments.CallComplete` | src/code_generator.c:418-481 | The slots of the arguments followed by the last lines of a call are the whole call, for every number of arguments: one frame, then slots 0 to n - 1 in order |
| `Arguments.LinesArePrologue` | src/code_generator.c:572-587 | The lines written for the parameters of a header, one by one, are the prologue that moves slot i to parameter i |
| `Arguments.CallArrives` | src/parser.c:564-706 | From tokens to values: for every argument list accepted against the parameters of a header, the call's code and the callee's prologue run if and only if every argument has a value, and then each parameter holds the value of its own argument in a new local frame, all else unchanged |
| `CallRuns.CallEnters` | src/code_generator.c:418-457 | Executed on the machine with its call stack, anywhere in any program: a call reaches the callee behind its prologue with every parameter holding its argument |
| `CallRuns.LeavesFunction` | src/code_generator.c:583-587 | The end of a function returns to the topmost return position and takes away exactly its local frame |
| `CallRuns.CallReturns` | src/code_generator.c:418-457 | A call whose callee reaches its end with its own frame on top of the caller's returns behind the call with the caller's local frames and call stack restored |
| `Hoisting.Generator.ParamAdd` | src/code_generator.c:445-481 | One frame before the first argument, then one numbered slot declared and filled for each |
| `Hoisting.Generator.FunctionCall` | src/code_generator.c:418-439 | A call without arguments gets its frame here; the call, and the argument counter back at zero |
| `LexRoundTrip.RoundTrip` | src/lexical_analyzer.c:453-603 | For every list of printable tokens with a space or newline after each, repeated calls return that list, each token flagged exactly when a newline came before it, then the end |
| `LexRoundTrip.FileRoundTrip` | src/lexical_analyzer.c:453-516 | The same for a whole file and a new lexer |
| `LexRoundTrip.TokenReads` | src/lexical_analyzer.c:522-1129 | Every printable token is read back whole, and only its separator has been read ahead |
| `LexRoundTrip.TextScans` | src/lexical_analyzer.c:1295-1402 | A text over the codes 1 to 127, escaped, is read back character by character |
| `LexRoundTrip.MultiLineReads` | src/lexical_analyzer.c:1131-1293 | A literal on several lines, with quotes and backslashes escaped, is read as its lines without the closing line's indentation; it is no token exactly when some line cannot lose it |
| `LexRoundTrip.IndentedReads` | src/lexical_analyzer.c:1131-1293 | Lines of any characters, escaped and indented by any whitespace, are read back as the lines |
| `LexRoundTrip.IntReads` | src/lexical_analyzer.c:987-1007 | Every natural below 2^31 printed in decimal is read back |
| `Lexing.Lexer.GetToken` | src/lexical_analyzer.c:453-516 | The in-place lexer returns the token, and leaves the state and the input, that the automaton specifies |
| `Lexing.Lexer.Feed` | src/lexical_analyzer.c:522-603 | One character changes the lexer's variables as one step of the automaton |
| `Indentation.Perform` | src/lexical_analyzer.c:199-285 | The in-place loops compute the specified dedenting |
| `Indentation.DedentsLines` | src/lexical_analyzer.c:199-285 | For every indent and every list of lines with a non-empty last one: each line loses the indent, and the result is an error exactly when some line can not |
| `Indentation.DedentsAll` | src/lexical_analyzer.c:199-285 | The same for all lines, empty last ones included, and any text before the closing quotes: that text is copied nowhere and is taken off every line |
| `Indentation.DedentsExactly` | src/lexical_analyzer.c:239-261 | A literal is accepted if and only if every line is empty or starts with the text before the closing quotes, the last line being allowed to end inside it |
| `Indentation.DedentUndoesIndent` | src/lexical_analyzer.c:199-285 | Stripping undoes indenting |
| `Indentation.DedentRejects` | src/lexical_analyzer.c:239-261 | A non-empty line before the last that does not start with the indent is an error |
| `Indentation.TextBeforeQuotesDropped` | src/lexical_analyzer.c:199-285 | A text with no line before it is silently lost |
| `Labels.LoopClosed` | src/parser.c:104-127 | A loop reserves one loop id beyond those of its condition and body, and jumps only to labels it defines once |
| `Labels.IfClosed` | src/parser.c:128-158 | A conditional reserves one condition id beyond those of its condition and branches, `??` inside the condition included |
| `Labels.FunctionClosed` | src/code_generator.c:572-587 | A function adds its two labels to those of its body |
| `Labels.TimesAtMostOnce` | src/code_generator.c:572-587 | If no name is `END_` followed by another, every function label is defined at most once |
| `Labels.ClashCounts` | src/code_generator.c:583-587 | A function named `END_x` beside a function `x` defines one label twice |
| `Blocks.LoopWrote` | src/parser.c:104-127 | What a successful loop has written is closed: balanced loops, own labels, known functions |
| `Blocks.IfWrote` | src/parser.c:128-158 | The same for a conditional |
| `StatementRuns.WhileRuns` | src/parser.c:104-127 | `while` as executed: for any number of rounds, each from the state the one before it left, and a false condition after the last, the loop runs to its end and leaves the state after that condition |
| `StatementRuns.IfRuns` | src/parser.c:128-158 | `if` as executed: the block that the condition chooses runs, nothing of the other one, and then the code behind both |
| `StatementRuns.AssignRuns` | src/parser.c:427-455 | An assignment as executed: the variable gets the value of the expression and the value leaves the stack exactly where the code stores it; every other variable is as the expression left it |
| `StatementRuns.NilAssignmentLost` | src/parser.c:441-446 | `x = nil` is accepted for every variable that can be nil, but x keeps its value and the nil stays on the stack |
| `StatementRuns.DefineRuns` | src/code_generator.c:226-229 | A definition as executed: its variable, new in its frame, takes the value from the top of the stack, all else unchanged |
| `StatementRuns.LetRuns` | src/parser.c:525-541 | `if let` as executed: the test leaves whether the variable is nil, and the constant holds its value |
| `StatementRuns.LetWritten` | src/parser.c:525-541 | What is written for `if let` is that code |
| `Programs.HoistedSameLines` | src/code_generator.c:136-164 | Hoisting permutes the written lines |
| `Programs.CodeResolved` | src/parser.c:13-66 | Code that keeps to its labels and calls known functions is resolved if and only if no name is `END_` followed by another |
| `Programs.ClosedUp` | src/parser.c:58-66 | At the end no loop is open and nothing is buffered |
| `Extents.ExprEndIs` | src/expression.c:795-881 | All calls of the expression parser from one place that report no error end at one place, a function of the tokens |
| `Extents.ListEndIs` | src/parser.c:564-706 | Where an argument list ends does not depend on where its variables are read from |
| `Extents.VisitsDiffer` | src/parser.c:13-66 | A parse that comes to the end of the file begins no function and no outer statement twice, even if expressions have taken it back |
| `Extents.NameEnds` | src/parser.c:13-66 | With a brace after every header, no program and no block can go on at the name of a function whose keyword an expression has stepped over |
| `Extents.FunctionsVisited` | src/parser.c:13-66 | With a brace after every header, a parse from `i` that comes to the end of the file has translated every function from `i` on |
| `Extents.EachFunctionOnce` | src/parser.c:13-66 | So from the start each function is translated, and exactly once |
| `Extents.KnownCovered` | src/parser.c:1294-1311 | Every function that is called with a frame is declared by a header |
| `Symbols.CalleeKnown` | src/parser.c:468-475 | In tables where only declared functions have the type of functions, whatever passes the guards on types of a call (also those at lines 210-216) is a declared function with the parameters of its header |
| `Symbols.ReceivedPlain` | src/parser.c:441-455 | An expression or call that is no function can only be stored in an item of the type of functions if that item may be nil or gets its type now |
| `Symbols.LetPlain` | src/parser.c:500-543 | `if let` keeps the tables plain unless it is applied to a function that can be nil |
| `Symbols.ArgumentAgreesExactly` | src/parser.c:627-681 | Of an argument that is found the generator reads exactly the variable that was checked if and only if that variable is initialised or global; labelled arguments, at lines 1078-1126, need not be |
| `Symbols.CurrentKept` | src/parser.c:631-653 | The condition under which this holds is kept from one argument to the next |
| `Impostors.FunctionVariableCalled` | src/parser.c:451-455 | After `f = nil`, `let g = (f)`, `g()` the program calls `g`, which no header declares: for every function that can be nil and every new name |
| `Impostors.LetFunctionCalled` | src/parser.c:500-543 | `if let f` makes a constant that is a function without parameters, whatever the header says, and that can be called with no argument |
| `Impostors.CopyCallsExactly` | src/parser.c:468-490 | Such a call gets through the prologue of the function if and only if the header has no parameters |
| `Impostors.LetCopyCalled` | src/parser.c:500-543 | `let g = (f)`, `g()` inside `if let f` calls `g`, which no header declares |
| `Impostors.UnknownUnresolved` | src/code_generator.c:418-439 | Code that calls a name no header declares is not resolved |
| `Impostors.HeaderCalled` | src/parser.c:1294-1311 | A header without a brace, hidden behind an expression that steps over its keyword: the parse comes to the end of the file with the header read as a call of the function and the function never translated |
| `Parsing.Parser.Parse` | src/parser.c:1451-1505 | After a successful parse the scope stack, both counters and the print buffer are empty; and where a brace follows every header and no function that can be nil stands before `=` or after `if let`, every jump and call in the output has exactly one label if and only if no function name is `END_` followed by another. Expressions may end anywhere, even before their start |
| `Parsing.Parser.Prog` | src/parser.c:13-66 | Up to the end of the file: back at the outermost level, the written code closed, one pair of labels for each function translated, and the places visited are those that the tokens determine |
| `Parsing.Parser.Stmt` | src/parser.c:68-164 | A successful statement restores scope depth and both counters, writes closed code, and ends where the tokens and the signatures say; the same rule inside functions is at lines 822-923 |
| `Parsing.Parser.WhileRule` | src/parser.c:104-127 | The same for a loop, with the generator's open loops equal to the parser's |
| `Parsing.Parser.IfRule` | src/parser.c:128-158 | The same for a conditional |
| `Parsing.Parser.Block` | src/parser.c:778-820 | A successful block pops exactly one scope and stops at its closing brace |
| `Parsing.Parser.CondClause` | src/parser.c:496-562 | A condition writes closed code that jumps to its own labels only and ends where the tokens say; `if let` leaves exactly the tables with its constant, an expression leaves them as they were |
| `Parsing.Parser.ExprType` | src/parser.c:382-494 | What follows a name that begins a statement: after `=` the variable was open to it and is the only thing that has changed, otherwise an item of the type of functions has been called and nothing has changed; counters and labels are kept and the end is the one that the tokens determine |
| `Parsing.Parser.NameRule` | src/parser.c:87-101 | The same for the item that the name denotes, innermost scope first, then the global table |
| `Parsing.Parser.RightSide` | src/parser.c:208-290 | What follows `=`, a call where a global function is named and otherwise an expression: only the assigned item has changed, it has a value, and its type is new only in a definition without one; the end is the one that the tokens determine |
| `Parsing.Parser.ExprSide` | src/parser.c:427-455 | An expression on the right: its own code, then the lines that store its value, except where nil is assigned to a variable of another type, which stores nothing; the assigned item is the one that the type of the result makes of it |
| `Parsing.Parser.CallSide` | src/parser.c:210-231 | A call on the right: a definition without a type takes the type of the result before the arguments are read; then come exactly the frame, slots and call of these arguments and the lines that store the result |
| `Parsing.Parser.Define` | src/parser.c:166-206 | A definition makes one new variable, in the innermost scope in bodies and in the global table outside, changes nothing else, and gives it the written type or, without one, a value |
| `Parsing.Parser.DefineRule` | src/parser.c:72-86 | The same after `var` or `let`, which decides whether the variable is mutable |
| `Parsing.Parser.OptRet` | src/parser.c:939-967 | `return` ends directly behind its keyword in functions without a result and behind an expression in all others |
| `Parsing.Parser.ArgList` | src/parser.c:564-591 | A successful list ends after its closing parenthesis, is the list that the parameters of the called item ask for, and has filled one slot for each argument that has a value, in order |
| `Parsing.Parser.Arg` | src/parser.c:627-706 | An argument of the form its parameter asks for, labelled or not, fills the next slot with its own value, or none when it has no value |
| `Parsing.Parser.ArgNext` | src/parser.c:593-625 | The rest of a list, after its first argument, meets the rest of the parameters and fills their slots |
| `Parsing.Parser.ArgVariable` | src/parser.c:627-653 | The variable of an argument becomes the current item; the generator reads it if and only if it is initialised or global |
| `Parsing.Parser.PlainArg` | src/parser.c:627-681 | A variable where the parameter has no label fills the next slot with what the generator reads for it |
| `Parsing.Parser.Term` | src/parser.c:1078-1126 | A value behind a label, a variable or a literal of a kind that suits its parameter, fills the next slot |
| `Parsing.Parser.ParamAdd` | src/parser.c:627-706 | Each value passed goes into the next slot, with the frame before the first |
| `Parsing.Parser.CallRule` | src/parser.c:468-490 | A successful call, of whatever item was found, has written exactly one frame, the slots of its arguments in order and the call, for the arguments that stand in the tokens and meet that item's parameters |
| `Parsing.Parser.Funccall` | src/parser.c:1313-1329 | The same for a call on the right of `=`, where only the global table is searched |
| `Parsing.Parser.Expr` | src/expression.c:795-881 | An expression is what a call of the expression parser returns for the visible tables and the assigned item: its code is written, the cursor is where it ended, which is the only place where such calls on these tokens can, and in a tame program its result is no function |
| `Parsing.Parser.FunctionRule` | src/parser.c:13-57 | A function writes its head label, the prologue for exactly the parameters of its header, closed body and end label, restores scopes and counters, and ends where the tokens say |
| `Parsing.Parser.FunctionName` | src/parser.c:20-33 | The second pass meets the function of the header again, opens one scope for its parameters, starts counting them and writes its head label |
| `Parsing.Parser.TopRule` | src/parser.c:13-66 | One function or statement at the top writes closed code, with the labels of exactly that function, and ends where the tokens say |
| `Parsing.Parser.ParamSkip` | src/parser.c:1226-1248 | A parameter writes its own lines of the prologue and counts itself |
| `Parsing.Parser.FuncHeader` | src/parser.c:1171-1197 | The first pass stops exactly at the end of the header, declares exactly its name, which was new, and records its parameters and result as they stand in the tokens |
| `Parsing.Parser.HeaderName` | src/parser.c:1171-1186 | The first pass declares the name of a header as a new global item of the type of functions |
| `Parsing.Parser.Skip` | src/parser.c:1294-1311 | The first pass leaves a header recorded for every function keyword from here to the end that hides in no header |

## Left out

- Memory allocation, `free`, growth of buffers, the token buffer's linked list (a sequence and a cursor), input and
  output, the textual form of instructions and operands, error messages, exit codes beyond the first recorded error.
- Doubles: values are terms over uninterpreted arithmetic, comparison and conversion. Integers in expression values are
  unbounded; an integer literal beyond 31 bits has a value that the platform decides.
- The counters of uids, labels, scopes and table items do not wrap around.
- The bodies of the two hash functions: any functions of the name within the ranges 0..size-1 and 1..size-1.
- Tables that outgrow the last listed size, 25229.
- The symbol table's load is compared exactly, 20 * count against 13 * size, not in single precision.
- Correctness.ExprCodeRuns: division has no meaning here, because the guard against zero reads a token union that is
  meaningless for anything but a literal; its action and its code are modelled. Identifiers with `?`, which the lexer
  never makes, could clash with the generator's own variables.
- Typing.ExpressionRuns: excludes division and the unwrapping of nil, which end the program.
- Soundness.AcceptsExactlySentences: asks for a token list without line starts and without `!(`;
  `Lines.AcceptsExactlyLines` needs this only of the expression itself, and `AfterBang` and `Anomalies` show that the
  exclusions are needed.
- Lines.AcceptsExactlyLines: an expression that goes on over several lines is covered where it is a sentence
  (`Sentences.SentenceReturns`, `Sentences.LineReturns`) and in the families of `AfterBang` and `Anomalies`; for any
  other, `Straying.ReturnsGood` says what an accepted call has done to the cursor and the labels, not what it accepts.
- AfterBang.BangParenExactly: other lists with `!(`, such as those with the `!(` inside parentheses, are not
  characterised; `Anomalies.PassesOverKeyword` is one that is accepted.
- Termination.CallStops: asks for a whole token list without line starts, because after an error a call reads past the
  expression. Which other calls return is known for sentences (`Sentences.SentenceReturns`, `Sentences.LineReturns`),
  for `!` chains at the end of a line (`AfterBang`, `Anomalies.LineReturnsOutsideOnly`), and not in general.
- Naming.NamesAgree: an initialiser at a point without any scope, where the program reads a null pointer, is answered
  from the global table.
- ExprParsing.ExprParser.IdIsDefined: the same null pointer.
- The flags `is_literal` and `is_identifier` of an unwrapped symbol, and the token unions read unset, are arbitrary; the
  initial `$` starts no line.
- ExprParsing.ExprParser.Expr: returns whenever its loop halts; where it does not, there is no call to speak about.
- Parsing.Parser.Parse: the lines of built-in functions, which have no labels, are arbitrary, and so is unset memory. A
  parse is followed for as many functions and statements as asked for, and for every such number; one that goes round
  for ever has no result to speak about. Whether a successful parse can contain an expression that ends before its start
  is not decided; the theorem covers such parses. The condition on names that can be nil is about the names: it also
  refuses local variables that share them.
- Parsing.Parser.FunctionName: a function that the first pass has not seen, because its keyword hides in another header,
  is a null pointer in the program and the internal error here.
- Parsing.Parser.CallRule: the built-in functions that the generator expands in place have no frame, and their lines
  are not specified.
- Parsing.Parser.OptRet: as in the program, whether a returned value can be nil is not compared with the header.
- Arguments.CallArrives: is about calls checked against a header; for calls of a copy of a function see
  `Impostors.CopyCallsExactly`. The parameters' names must differ.
- CallRuns.CallReturns: that the body of the callee reaches its end with its frame on top is a hypothesis.
- StraightLine.HoistingKeepsMeaning: speaks of straight bodies; `HoistedRuns.LoopHoists` has labels, jumps and
  temporary frames too, but no calls and returns, for which see `Calls.LoopCallsExactly`.
- HoistedRuns.RunHoists: a run in the order of the source passes a declaration it has made before without an error,
  which the machine would report (`StraightLine.SecondRoundFails`); its variables are declared at the level of the loop.
- Parsing.Parser.Stmt: `stmt` and `func_stmt`, and `block_body` and `func_body`, are one method each with a flag for the
  rules that only functions have; the rules after `=` share one method. Whether a function returns on every path is
  kept only as the flag the code keeps.
- The internal labels of the built-in functions and the end-of-file label are plain lines.
- StatementRuns.WhileRuns: the statements are executed one by one, in `StatementRuns` and `CallRuns`; a meaning of whole
  programs, with the statements composed, is not given.
- LexRoundTrip.RoundTrip: no comments and no doubles; an empty line comment loses its newline flag.
- LexRoundTrip.MultiLineReads: escapes other than those of `"` and `\` do not occur inside the lines.
