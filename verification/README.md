# A verified model of the Z98 compiler's meaning-preserving passes

The compiler translates a Zig dialect to C89. This project models the passes in which a mistake would silently change
what a program does, and proves what those passes are for:

- **Control-flow back end** (`Source`, `SourceSemantics`, `SourceFacts`, `Completion`, `Target`, `Emission`, `Simulation`, `Labels`,
  `BackEndCorrectness`, `Emitter`, `DeferDiscipline`, `DeferStack`, `MarkErasure`). Structured code with nested blocks,
  labelled loops, switches, `break`/`continue`/`return`, `defer` and `errdefer` has a fuelled big-step semantics over
  effect traces. The emitted C is a flat program of labels, gotos, conditional jumps, effects and returns with a
  small-step semantics. Emission is proved to preserve and reflect every outcome, divergence included, and to write
  closing returns and statements behind others exactly where a run can get to them. The class
  `Emitter.C89Emitter` is the emitter itself (output, defer stack, loop stack) and is proved to append exactly the code
  the simulation is about.
- **Expression lifter** (`ControlExpressions`, `Lifting`, `LiftingFacts`, `LiftingCorrectness`, `LiftingResidue`,
  `TemporaryScopes`, `YieldingPaths`, `BlockWalk`). `if`/`switch`/`try`/`catch`/`orelse` expressions become statements that assign temporaries, in bodies
  with branches, switches and loops. Meaning, evaluation order, the assigned temporary, where temporaries are declared,
  what is left behind, and the backward walk over the block being changed.
- **Printers and parsers** (`Declarators`, `DeclaratorRoundTrip`, `DeclaratorWriter`; `Expressions`, `LayeredGrammar`,
  `ExpressionGrammar`, `ExpressionParser`; `StringLiterals`; `Integers`). Each printer is paired with a reader, and the
  expression parser's precedences with a grammar that has one nonterminal for each level and no numbers.
- **Double-free analyser** (`AllocationStates`, `ScopeMerging`, `DoubleFree`, `DoubleFreeSoundness`,
  `DoubleFreeCompleteness`). A heap chain of per-scope deltas refines a flat map; exactly which statements can make a
  report wrong, and which double frees are reported.
- **Ordering and naming** (`Kahn`, `KahnOrder`, `ModuleOrder`, `HeaderOrder`, `Keywords`, `NameAllocator`).

Code the compiler writes as mutation is modelled as mutation: classes with fields and frames, arrays where it fills
buffers, loops with invariants. Linked lists and growing arrays are `seq` fields. `Options` and `Sequences` are shared.

Some laws turned out to hold only under a condition. Each has its exact condition and a concrete input on which it
fails: declarators (`RoundTripIff`; `ConstFunctionMisread`, `VoidParameterMisread`), names (`ChosenFacts`;
`FirstEmptyWish`, `SecondUnderscore`), lifting residue (`ResidueAll`; `VoidIfKeepsTry`, `VoidSwitchKeepsTry`), header
order, which records no dependency on the optionals and error unions a type contains (`ContainedFirstIff`;
`OptionalMisplaced`), the declarations of temporaries (`DeclaredIff`; `VoidOrelseUndeclared`), the tests for leaving on
every path (`Completion.ExitsIff`, `YieldingPaths.ExitsIff`; `EmptyProngOverlooked`, `DeadConditionOverlooked`), and the
double-free analyser, whose state after a switch without else prong or a compound assignment need not cover every run
(`SwitchSoundIff`, `CompoundSoundIff`; `ElseLessSwitchMisreported`, `CompoundMisreported`) and which loses what joined
paths disagree on (`JoinKeepsIff`; `MixedMissed`). For operand order (`CallOvertaken`) and loop conditions (`ConditionAskedOnce`) in the lifter the
conditions are sufficient.

`dafny verify dfyconfig.toml` checks everything.

## Model

| member | source | states |
|---|---|---|
| `BackEndCorrectness.EmittedFollowsSource` | src/bootstrap/codegen.cpp:1374-1470 | for every well-formed function and every fuel, the emitted goto program reaches the final configuration of the structured run, or keeps running with the same trace |
| `BackEndCorrectness.FinishesIff` | src/bootstrap/codegen.cpp:1355-1470 | the emitted program halts (ran off its end, executed the closing return, or returned this value) or traps with a trace exactly when the source does; where a closing return is due, a body that completes ends with it and never runs off the end |
| `BackEndCorrectness.ClosingReturnIff` | src/bootstrap/codegen.cpp:1428-1463 | the closing return of a function that has one is written exactly if some run of the body completes, unless a prong is never selected or a deferred body is sure to panic |
| `BackEndCorrectness.RestEmittedIff` | src/bootstrap/codegen.cpp:1420-1426 | what follows a statement is emitted exactly if some run passes that statement, with the same exception |
| `BackEndCorrectness.DivergesIff` | src/bootstrap/codegen.cpp:2071-2421 | the emitted program runs forever exactly when the source does |
| `DeferDiscipline.DefersRunOnceInOrder` | src/bootstrap/codegen.cpp:4928-4962 | on every halting run of the code emitted for a function with markers at its registrations, deferred bodies and returns, each registered defer ran exactly once, last in first out; on an error return the errdefers registered in the scopes open when the return began each started exactly once, innermost scope first and last registered first; otherwise none started |
| `MarkErasure.OwnDefersRunOnce` | src/bootstrap/codegen.cpp:4928-4962 | the same for the code emitted for the function itself: however it halts, its twin with markers halts alike, with the same trace but for the markers, and shows each defer run once in order and exactly the due errdefers started |
| `MarkErasure.MarkedProgramsAgree` | src/bootstrap/codegen.cpp:1374-1470 | the code emitted for a function ends in a configuration exactly if the code emitted for its twin with markers ends in one that differs by markers only |
| `MarkErasure.MarkedRunsAlike` | src/bootstrap/codegen.cpp:1399-1433 | with any fuel a function and its twin with markers have the same outcome, and the same trace without the markers |
| `DeferStack.StackIsPending` | src/bootstrap/codegen.cpp:1399-1433 | whenever a run starts a statement, the emitted program is at the code emitted for it under some defer stack, and the bodies pending at run time are exactly those of that compile-time stack, innermost last |
| `DeferDiscipline.LeavesScope` | src/bootstrap/codegen.cpp:4940-4956 | leaving a scope runs its pending defers and starts its errdefers, each once and last first, exactly if the scope is left by an error return |
| `DeferDiscipline.BalancedStmt` | src/bootstrap/codegen.cpp:1399-1433 | every way of leaving a statement leaves the run-time stack of pending bodies as it was entered, and on an error return every errdefer above it has started |
| `Labels.FunctionIsLinked` | src/bootstrap/codegen.cpp:4315-4336 | labels are unique, every goto names one of them, and a continue label is emitted exactly when an emitted continue targets it |
| `SourceFacts.ExitsNeverFallThrough` | src/bootstrap/ast_utils.cpp:808-872 | a statement for which `allPathsExit` holds never completes normally, whatever the fuel |
| `Completion.ExitsIff` | src/bootstrap/ast_utils.cpp:808-872 | where no prong is hidden and no deferred body is sure to panic, `allPathsExit` holds exactly if the text leaves no way through the statement |
| `Completion.CompletesIff` | src/bootstrap/codegen.cpp:1399-1433 | the text leaves a way through a body exactly if some run of it completes normally, whether or not the function returns error unions |
| `Completion.EmptyProngOverlooked` | src/bootstrap/ast_utils.cpp:846-855 | `allPathsExit` says no for a switch whose only falling prong lists nothing, though no run passes it |
| `SourceFacts.SomeExitNeverFallsThrough` | src/bootstrap/codegen.cpp:1401-1433 | a block with an exiting statement never reaches its end, so the dropped rest and trailing defers are unreachable |
| `SourceFacts.LeavingKeepsOutcome` | src/bootstrap/codegen.cpp:5035-5117 | running deferred code changes neither the outcome nor the returned value fixed before it |
| `SourceFacts.JumpsAreClosed` | src/bootstrap/codegen.cpp:4964-5025 | a run only ever leaves by jumps to enclosing loops |
| `Simulation.SimExit` | src/bootstrap/codegen.cpp:4928-4962 | the code emitted for an exit runs exactly the pending bodies of the scopes from the innermost to the target's body scope: defers in reverse, then errdefers in reverse if the error flag is set |
| `Simulation.SimReturn` | src/bootstrap/codegen.cpp:5035-5117 | the return value is evaluated first, sets the error flag, and is returned after all scopes are unwound |
| `Simulation.SimJump` | src/bootstrap/codegen.cpp:4964-5025 | break and continue unwind exactly through the target loop's body scope and land at its label |
| `Simulation.SimSwitch` | src/bootstrap/codegen.cpp:1930-2069 | the case table (ranges expanded) selects the prong the source selects, else falls through alike |
| `Simulation.SimWhile` | src/bootstrap/codegen.cpp:2271-2421 | each iteration of the emitted loop, continue expression included, follows the source loop |
| `Simulation.SimFor` | src/bootstrap/codegen.cpp:2071-2268 | the index/length counters of the emitted loop follow the source iteration |
| `Simulation.SimIf` | src/bootstrap/codegen.cpp:1666-1756 | the conditional jumps run the branch the source runs |
| `Emitter.C89Emitter.EmitBlock` | src/bootstrap/codegen.cpp:1374-1470 | appends the specified code of a block, with the stacks restored and continues recorded |
| `Emitter.C89Emitter.EmitStatement` | src/bootstrap/codegen.cpp:1549-1664 | appends the specified code of any statement |
| `Emitter.C89Emitter.EmitIf` | src/bootstrap/codegen.cpp:1666-1756 | as specified, jump distances patched in afterwards |
| `Emitter.C89Emitter.EmitSwitch` | src/bootstrap/codegen.cpp:1930-2069 | as specified |
| `Emitter.C89Emitter.EmitFor` | src/bootstrap/codegen.cpp:2071-2268 | as specified; the continue label depends on what the body recorded |
| `Emitter.C89Emitter.EmitWhile` | src/bootstrap/codegen.cpp:2271-2421 | as specified; the continue label depends on what the body recorded |
| `Emitter.C89Emitter.EmitDefersForScopeExit` | src/bootstrap/codegen.cpp:4928-4962 | walks the scope stack down to the target and appends the specified exit code |
| `Emitter.C89Emitter.EmitBreak` | src/bootstrap/codegen.cpp:4964-4989 | exit code, then the goto to the loop's end |
| `Emitter.C89Emitter.EmitContinue` | src/bootstrap/codegen.cpp:4991-5025 | exit code, then the goto, recorded at the right loop of the stack |
| `Emitter.C89Emitter.EmitReturn` | src/bootstrap/codegen.cpp:5035-5117 | temporary, flag and exit code exactly when something is pending or the value must be wrapped as a value of the return type |
| `Emitter.C89Emitter.HasPendingDefers` | src/bootstrap/codegen.cpp:5035-5050 | finds a registered body in any open scope, and only then |
| `Emitter.EmitFunctionBody` | src/bootstrap/codegen.cpp:1355-1369 | the emitter run on a whole function outputs the program all theorems are about |
| `LiftingCorrectness.BodyPreserved` | src/bootstrap/ast_lifter.cpp:94-315 | a lifted body, branches, switch statements and loops included, follows the body with any fuel: it returns the same value, or is still running, with the same variables and the same calls in the same order |
| `LiftingCorrectness.WhileMatches` | src/bootstrap/ast_lifter.cpp:131-139 | every iteration of a lifted while loop, capture and continue expression included, follows the loop, whatever earlier iterations left in the temporaries |
| `LiftingCorrectness.ForStmtMatches` | src/bootstrap/ast_lifter.cpp:140-144 | what is lifted out of the range of a for loop runs once in front of it, and each iteration follows the loop |
| `LiftingCorrectness.ConditionAskedOnce` | src/bootstrap/ast_lifter.cpp:1476-1500 | what is lifted out of a loop condition is run once only: `while (try f()) {}` ends when `f` answers false, its lifted form never does |
| `LiftingCorrectness.ExprMatches` | src/bootstrap/ast_lifter.cpp:914-1341 | running the code, captures included, that was lifted out of any nesting of if/switch/try/catch/orelse and then what is left equals evaluating the expression |
| `LiftingCorrectness.TemporaryAssigned` | src/bootstrap/ast_lifter.cpp:1365-1501 | every path of the code that falls through has assigned the temporary the expression's value, every other path returned what the expression returns |
| `LiftingCorrectness.ArgsMatch` | src/bootstrap/ast_lifter.cpp:94-315 | operands keep their meaning although code is moved in front of the ones left in place: past constants, variables and lifted operands always, past calls if the code neither calls nor leaves |
| `LiftingCorrectness.BranchMatches` | src/bootstrap/ast_lifter.cpp:1337-1353 | a branch assigns the temporary what it yields, or leaves by return, break, continue or unreachable without assigning it |
| `LiftingCorrectness.ReturnTryMatches` | src/bootstrap/ast_lifter.cpp:1053-1099 | `return try e` returns the error or the wrapped payload |
| `LiftingCorrectness.TryVoidMatches` | src/bootstrap/ast_lifter.cpp:1383-1426 | a try without payload needs no temporary and still returns every error |
| `LiftingCorrectness.CatchVoidMatches` | src/bootstrap/ast_lifter.cpp:1196-1275 | a catch without value runs its handler, capture included, exactly on an error |
| `LiftingCorrectness.OrelseVoidMatches` | src/bootstrap/ast_lifter.cpp:1277-1335 | an orelse without value runs its alternative exactly on null |
| `LiftingCorrectness.CallOvertaken` | src/bootstrap/ast_lifter.cpp:1476-1500 | for a call left of a lifted operand the order does change, and the condition excludes it |
| `LiftingFacts.ExitsReturnE` | src/bootstrap/ast_utils.cpp:808-872 | an expression for which `allPathsExit` holds never yields a value, so no assignment is needed |
| `TemporaryScopes.DeclaredIff` | src/bootstrap/ast_lifter.cpp:1365-1501 | no temporary of a lifted body is declared twice, and every read and assignment of one sees its declaration, in an enclosing block, before it and hidden by no other, exactly if no void orelse was lifted |
| `TemporaryScopes.VoidOrelseUndeclared` | src/bootstrap/ast_lifter.cpp:1277-1335 | `x orelse {}` assigns a temporary that is not declared |
| `YieldingPaths.ExitsIff` | src/bootstrap/ast_utils.cpp:808-872 | where every condition, operand and payload can yield, `allPathsExit` holds for an expression exactly if no path through it yields |
| `YieldingPaths.YieldedByPath` | src/bootstrap/ast_utils.cpp:808-872 | an expression that ever yields a value has such a path |
| `YieldingPaths.AssignedIff` | src/bootstrap/ast_lifter.cpp:1337-1353 | there, a lifted branch ends with an assignment to the temporary exactly if it can yield a value |
| `YieldingPaths.DeadConditionOverlooked` | src/bootstrap/ast_utils.cpp:831-835 | `allPathsExit` says no for an if expression whose condition always returns |
| `LiftingResidue.ResidueAll` | src/bootstrap/ast_lifter.cpp:602-643 | try/catch/orelse remain in lifted code exactly if one is hidden in a branch of a void if expression or anywhere in a void switch expression |
| `LiftingResidue.NothingLeft` | src/bootstrap/ast_lifter.cpp:602-643 | none remains if no if/switch expression has type void |
| `LiftingResidue.VoidIfKeepsTry` | src/bootstrap/ast_lifter.cpp:229-246 | a try in a void if expression does remain |
| `LiftingResidue.VoidSwitchKeepsTry` | src/bootstrap/ast_lifter.cpp:229-246 | a try in the operand or in any prong of a void switch expression does remain |
| `BlockWalk.LiftBlock` | src/bootstrap/ast_utils.cpp:128-136 | the backward walk with insertion visits each statement once, last first, no inserted one, and leaves each statement's code followed by what became of it |
| `BlockWalk.Block.Visit` | src/bootstrap/ast_lifter.cpp:1476-1500 | the code goes directly in front of its statement |
| `BlockWalk.Block.FindStatementIndex` | src/bootstrap/ast_lifter.cpp:1355-1363 | the first slot holding the statement, or -1 if there is none |
| `DeclaratorRoundTrip.RoundTripIff` | src/bootstrap/codegen.cpp:160-311 | reading a printed declaration by section 6.5.4 of ISO/IEC 9899:1990 gives back the name and the intended type if and only if the type has no pointer to a const function and no parameter list of `void` alone |
| `DeclaratorRoundTrip.DeclarationReadsBack` | src/bootstrap/codegen.cpp:160-311 | every printed declaration is one declaration of its name, and of exactly which C type |
| `DeclaratorRoundTrip.DeclarationSpaced` | src/bootstrap/codegen.cpp:160-167 | neighbouring words never run together |
| `DeclaratorRoundTrip.VoidParameterMisread` | src/bootstrap/codegen.cpp:279-297 | a parameter list of `void` alone reads as no parameters |
| `DeclaratorRoundTrip.ConstFunctionMisread` | src/bootstrap/codegen.cpp:221-233 | const on a pointer to a function lands on the return type |
| `Declarators.DeclReads` | src/bootstrap/codegen.cpp:160-311 | the reader recovers every proper declaration from its text |
| `DeclaratorWriter.Writer.EmitDeclarator` | src/bootstrap/codegen.cpp:160-203 | appends exactly the declaration, deciding on the space by the last character written |
| `DeclaratorWriter.Writer.EmitTypePrefix` | src/bootstrap/codegen.cpp:205-252 | appends the prefix |
| `DeclaratorWriter.Writer.EmitTypeSuffix` | src/bootstrap/codegen.cpp:254-311 | appends the suffix |
| `ExpressionGrammar.ParsesIff` | src/bootstrap/parser.cpp:514-814 | the parser returns a tree and a rest exactly when the layered grammar derives the tree, it prints as the tokens consumed, the rest does not go on with it, and its depth is within the recursion limit |
| `ExpressionGrammar.PairGroups` | src/bootstrap/parser.cpp:563-616 | for every two operators between three literals the layered grammar derives exactly one of the two groupings, and that one is parsed |
| `LayeredGrammar.AssignmentLayer` | src/bootstrap/parser.cpp:563-616 | the trees of the grammar (product, sum, shift, and, xor, or, comparison, `and`, `or`, chain, fallback, assignment) are those that obey the table of precedences |
| `ExpressionGrammar.PrintedOnce` | src/bootstrap/parser.cpp:639-736 | two trees of the grammar never print alike |
| `ExpressionGrammar.PrecParses` | src/bootstrap/parser.cpp:639-736 | reading a tree's tokens brings the operator loop to that tree, or fails for depth, for every minimum precedence |
| `ExpressionGrammar.LoopSound` | src/bootstrap/parser.cpp:639-736 | every step of the operator loop keeps the rules and the text |
| `ExpressionParser.Parser.ParsePrecedenceExpr` | src/bootstrap/parser.cpp:639-736 | the loop with its cursor and depth counter computes the grammar function |
| `ExpressionParser.Parser.ParseUnaryExpr` | src/bootstrap/parser.cpp:514-555 | collecting operators and wrapping backwards computes the grammar function |
| `ExpressionParser.Parser.ParsePostfixExpression` | src/bootstrap/parser.cpp:376-498 | member access and dereference chains |
| `ExpressionParser.Parser.ParsePrimaryExpr` | src/bootstrap/parser.cpp:204-275 | literals, identifiers and parentheses |
| `ExpressionParser.Parser.ParseAssignmentExpression` | src/bootstrap/parser.cpp:757-810 | right-associative assignments |
| `StringLiterals.LiteralRoundTrip` | src/bootstrap/codegen.cpp:4050-4067 | decoding an emitted literal by sections 6.1.3.4 and 6.1.4 of ISO/IEC 9899:1990 gives the bytes up to the first NUL, so all bytes of a NUL-free string, whatever the chunk size |
| `StringLiterals.PiecesFit` | src/bootstrap/codegen.cpp:4050-4067 | the adjacent literals hold exactly the chunk size of bytes each, the last one at most that many |
| `StringLiterals.EscapeReads` | src/bootstrap/codegen.cpp:4505-4538 | each escape reads back as its byte whatever follows |
| `StringLiterals.CharLiteralRoundTrip` | src/bootstrap/codegen.cpp:4069-4074 | the same for character literals |
| `StringLiterals.EmitStringLiteral` | src/bootstrap/codegen.cpp:4050-4067 | the chunking loop writes that literal |
| `Integers.ParseInteger` | src/bootstrap/lexer.cpp:78-110 | succeeds exactly when the value of the digits is below 2^64, and returns it |
| `Integers.HexadecimalRoundTrip` | src/bootstrap/lexer.cpp:78-110 | every number written in hexadecimal, with either prefix, letters in any mix of case, leading zeros and underscores anywhere, is read as that number, whatever ends it |
| `Integers.DecimalWritings` | src/bootstrap/lexer.cpp:78-110 | the same in decimal |
| `Integers.RenderThenParse` | src/bootstrap/platform.cpp:647-666 | parsing what was rendered into a buffer returns the number exactly when it fits, always from 21 bytes on |
| `Integers.ShortReadsLess` | src/bootstrap/platform.cpp:647-666 | a short buffer keeps the low digits and so reads as less |
| `Integers.U64ToString` | src/bootstrap/platform.cpp:647-666 | fills the buffer with the last digits that fit |
| `Integers.I64ToString` | src/bootstrap/platform.cpp:668-697 | exact down to the minimum value given room for the sign |
| `Integers.Reverse` | src/bootstrap/platform.cpp:46-56 | reverses the front of the buffer in place |
| `Integers.TwentyOneSuffice` | src/bootstrap/platform.cpp:647-697 | no 64-bit number needs more than 20 characters |
| `DoubleFreeSoundness.SwitchSoundIff` | src/bootstrap/double_free_analyzer.cpp:777-832 | the state after a switch without else covers the run that takes no prong exactly if every name all prongs leave freed was freed before |
| `DoubleFreeSoundness.CompoundSoundIff` | src/bootstrap/double_free_analyzer.cpp:688-711 | the state after a compound assignment covers its runs exactly if the name was not held as freed |
| `DoubleFreeSoundness.ElseLessSwitchMisreported` | src/bootstrap/double_free_analyzer.cpp:745-775 | two prongs that free, none taken, then a free: reported although nothing was freed |
| `DoubleFreeSoundness.CompoundMisreported` | src/bootstrap/double_free_analyzer.cpp:688-711 | free, `p += 1`, free: reported although the pointer was assigned in between |
| `DoubleFreeSoundness.CarefulReportsAreReal` | src/bootstrap/double_free_analyzer.cpp:404-457 | where the analysis meets neither of the two cases, every report is real on every run that reaches it |
| `DoubleFreeSoundness.ReportsAreReal` | src/bootstrap/double_free_analyzer.cpp:404-457 | in a function whose switches have an else prong or, for each name in scope, a prong that does not free it, and whose compound assignments are to names not freed before, every reported free, on every run that reaches it, frees a variable freed since its last assignment |
| `DoubleFreeSoundness.PlainIsCareful` | src/bootstrap/double_free_analyzer.cpp:777-832 | that condition on the text keeps the analysis away from both failing cases |
| `DoubleFreeSoundness.StmtSound` | src/bootstrap/double_free_analyzer.cpp:298-457 | under the exact conditions, what the analyser holds as freed has been freed since its last assignment on every path |
| `DoubleFreeCompleteness.ReportsIff` | src/bootstrap/double_free_analyzer.cpp:404-437 | in a function that frees no name on which joined paths disagree, on every run: of the frees reached, exactly those of a variable whose own memory was freed since its last assignment are reported as double frees, and exactly those of a pointer never assigned as frees of an uninitialised one |
| `DoubleFreeCompleteness.ReportsAreAgain` | src/bootstrap/double_free_analyzer.cpp:404-437 | there, on a run that frees own memory only, the reports are exactly the double frees |
| `DoubleFreeCompleteness.StraightReportsIff` | src/bootstrap/double_free_analyzer.cpp:298-437 | straight-line code over pointers is always of that kind: every double free of own memory is reported and nothing else is |
| `DoubleFreeCompleteness.StmtTracks` | src/bootstrap/double_free_analyzer.cpp:298-457 | on every run the analyser is right about every name that is not blurred: known or not, holding own memory, own memory freed, or never assigned |
| `DoubleFreeCompleteness.JoinKeepsIff` | src/bootstrap/double_free_analyzer.cpp:958-1016 | a join is right about a name on every path exactly if the paths agree on what it holds |
| `DoubleFreeCompleteness.MixedMissed` | src/bootstrap/double_free_analyzer.cpp:491-554 | `if (c) free(p); free(p); free(p);`: the last call frees again on every run but is not reported |
| `DoubleFree.SwitchAnyOrder` | src/bootstrap/double_free_analyzer.cpp:777-832 | permuting the prongs of a switch does not change any allocation state |
| `AllocationStates.FoldIsJoin` | src/bootstrap/double_free_analyzer.cpp:958-1016 | merging keeps a state only if all agree |
| `AllocationStates.StateMap.SetState` | src/bootstrap/double_free_analyzer.cpp:11-43 | updates the flat view at one name and touches this scope only |
| `AllocationStates.StateMap.GetState` | src/bootstrap/double_free_analyzer.cpp:45-61 | looks up the flat view through the chain |
| `AllocationStates.StateMap.Fork` | src/bootstrap/double_free_analyzer.cpp:83-87 | a fresh child with the same view |
| `ScopeMerging.MergeScopesLinear` | src/bootstrap/double_free_analyzer.cpp:993-1007 | fork plus linear merge updates the parent on exactly the names it knew |
| `ScopeMerging.MergeScopesAlternative` | src/bootstrap/double_free_analyzer.cpp:974-991 | pointwise merge of the branch with the entry state |
| `ScopeMerging.MergeBranches` | src/bootstrap/double_free_analyzer.cpp:777-832 | pointwise merge of all branches on the names of the entry scope |
| `DoubleFree.Analyzer.Visit` | src/bootstrap/double_free_analyzer.cpp:148-233 | the visitor on the heap chain computes the flat analysis, reports included, and changes only the current scope |
| `DoubleFree.Analyzer.VisitBlock` | src/bootstrap/double_free_analyzer.cpp:235-273 | a block's own names vanish, the others take its states |
| `DoubleFree.Analyzer.VisitIf` | src/bootstrap/double_free_analyzer.cpp:491-554 | the pointwise join of both paths |
| `DoubleFree.Analyzer.VisitSwitch` | src/bootstrap/double_free_analyzer.cpp:745-775 | the pointwise join of all prongs |
| `DoubleFree.Analyzer.VisitVarDecl` | src/bootstrap/double_free_analyzer.cpp:298-340 | states of a declared pointer, ownership transfer included |
| `DoubleFree.Analyzer.VisitAssignment` | src/bootstrap/double_free_analyzer.cpp:342-401 | states after an assignment |
| `DoubleFree.Analyzer.VisitCompoundAssignment` | src/bootstrap/double_free_analyzer.cpp:688-711 | forgets exactly allocated pointers |
| `DoubleFree.Analyzer.VisitFree` | src/bootstrap/double_free_analyzer.cpp:404-437 | reports exactly on freed pointers, separately on uninitialised ones, and frees exactly allocated ones |
| `Kahn.LeftOverIff` | src/bootstrap/compilation_unit.cpp:1016-1032 | exactly the nodes on or behind a cycle are left over |
| `Kahn.Capacity` | src/bootstrap/compilation_unit.cpp:1014-1032 | never more than N entries are enqueued |
| `Kahn.Relaxes` | src/bootstrap/compilation_unit.cpp:1023-1031 | relaxing an edge keeps in-degrees, queue and order in step |
| `ModuleOrder.SortModules` | src/bootstrap/compilation_unit.cpp:973-1052 | fails exactly on an unknown import; otherwise a permutation in which the settled part has every import first and the rest, in discovery order, is exactly what an import cycle holds up |
| `ModuleOrder.RelaxAll` | src/bootstrap/compilation_unit.cpp:1023-1031 | writes to the queue array stay in bounds |
| `KahnOrder.TakenBeforeIff` | src/bootstrap/metadata_preparation_pass.cpp:259-285 | the queue determines the order: a node is taken before another exactly if the other has the greater walk of dependencies, longer walks first, then compared node by node |
| `KahnOrder.FifoJoins` | src/bootstrap/metadata_preparation_pass.cpp:278-284 | a node joins the queue behind all that were ready earlier or with the same edge list and a smaller number |
| `HeaderOrder.SortHeaders` | src/bootstrap/metadata_preparation_pass.cpp:122-290 | a permutation in exactly that order, with every recorded by-value dependency first, unless dependencies are circular, when the old order stays |
| `HeaderOrder.RecordHeader` | src/bootstrap/metadata_preparation_pass.cpp:204-257 | the growing worklist ends and records, each once, exactly the header types a type contains by value other than optionals and error unions, which it looks through |
| `HeaderOrder.ContainedFirstIff` | src/bootstrap/metadata_preparation_pass.cpp:122-123 | everything a type contains by value, optionals and error unions included, is defined before it exactly if every type outranks what it contains or, where dependencies are circular, was listed after it |
| `HeaderOrder.ListedFirstStays` | src/bootstrap/metadata_preparation_pass.cpp:204-285 | an optional or error union listed before a type that contains it is defined before it |
| `HeaderOrder.OptionalMisplaced` | src/bootstrap/metadata_preparation_pass.cpp:208-215 | with `A = struct { x: ?B }`, `B = struct { p: *A }` and `?B` listed in this order, `?B` is defined after `A` |
| `HeaderOrder.SortedIff` | src/bootstrap/metadata_preparation_pass.cpp:259-289 | the sort completes exactly if nothing is circular |
| `NameAllocator.ChosenFacts` | src/bootstrap/c_variable_allocator.cpp:78-165 | a non-internal name is new, at most 31 characters, and by sections 6.1.1, 6.1.2 and 7.1.3 of ISO/IEC 9899:1990 an identifier that is neither keyword nor reserved, except exactly for the first empty wish and every later lone underscore |
| `NameAllocator.GoodWishGranted` | src/bootstrap/c_variable_allocator.cpp:78-165 | a wish that is a good name already, not internal and not in use, is granted unchanged |
| `NameAllocator.SanitisedIff` | src/bootstrap/c_variable_allocator.cpp:78-93 | sanitising keeps exactly the characters C allows |
| `NameAllocator.FirstEmptyWish` | src/bootstrap/c_variable_allocator.cpp:129-135 | the first empty wish yields an empty name |
| `NameAllocator.SecondUnderscore` | src/bootstrap/c_variable_allocator.cpp:131-160 | the second `_` becomes `__1`, which is reserved |
| `NameAllocator.ProbesAreFew` | src/bootstrap/c_variable_allocator.cpp:135-160 | numbered names differ, so at most one more is tried than names are assigned |
| `NameAllocator.Allocator.MakeUnique` | src/bootstrap/c_variable_allocator.cpp:78-165 | returns the first free choice and assigns it |
| `NameAllocator.Allocator.Number` | src/bootstrap/c_variable_allocator.cpp:135-160 | the probing loop ends with the first free number |
| `NameAllocator.Allocator.Allocate` | src/bootstrap/c_variable_allocator.cpp:46-72 | stable for a symbol seen before; two symbols share a name only if both are internal |
| `Keywords.IsKeyword` | src/bootstrap/c_variable_allocator.cpp:15-26 | the binary search decides membership in the table |
| `Keywords.TableIsC` | src/bootstrap/c_variable_allocator.cpp:7-13 | the table holds exactly the keywords of section 6.1.1 of ISO/IEC 9899:1990 |
| `Keywords.KeywordsAscend` | src/bootstrap/c_variable_allocator.cpp:7-13 | the table is sorted |

## Left out

- Back end: deferred bodies contain no loops, `return`, `break` or `continue` (src/bootstrap/type_checker.cpp:2322-2360); loop ids are distinct and every jump names an enclosing loop; bodies of `if`, loops and prongs are blocks, as the lifter leaves them (src/bootstrap/ast_lifter.cpp:120-163).
- Back end: the declaration pass of a block, the limits of 32 defers per scope and 1024 loop ids, indentation and text, captures beyond the effects they have, tagged-union access, 64-bit wrap of `for` ranges.
- Back end: expressions are effects and tests; their C text is not modelled, and the operator text emitted without parentheses has no general meaning.
- Emitter.C89Emitter.EmitReturn: the mapping of the value returned by `main` to an exit status (src/bootstrap/codegen.cpp:5078-5088) is not modelled.
- Emitter.C89Emitter.EmitSwitch: prongs are emitted by recursion over the prong list instead of a loop.
- DeferStack.StackIsPending: speaks of the function's own statements; while a deferred body runs, the stack it was emitted under still lists it.
- Lifter: defers; lifted parts of right operands of `and`/`or` and of else-if conditions; aggregate literals, calls to extern functions, exported functions. Local variables are assumed not to be changed by calls, and not to shadow one another.
- LiftingCorrectness.BodyPreserved: while conditions and continue expressions lift nothing; the conditions on them and on operand order are sufficient only, because whether calls may be exchanged or left out depends on what they do.
- BlockWalk.Block.Visit: all code lifted out of one statement is inserted in one go rather than one lifted expression at a time; the fallback of appending to the block when the statement is not in it is not reached by this walk.
- Declarators: missing types.
- DeclaratorWriter.Writer.EmitDeclarator: the named parameter list of a function definition is not modelled.
- DeclaratorWriter.Writer.EmitTypeSuffix: `anytype` parameters printed as `...` are not modelled.
- ExpressionParser.Parser.ParsePostfixExpression: calls, subscripts, slices and initializers end a parse with an error here, as do the primary forms starting with a keyword or a dot. A field keeps its token instead of its spelling.
- String literals: trigraphs are not read, hexadecimal escapes never written.
- DoubleFree.Analyzer.Visit: no loops, no defers, no `try`/`catch`/`orelse` (a `try` forgets states scope by scope, which no flat map does), no void if expressions (the analyser does not look into them), no composite names; positions other than the first free are not kept.
- DoubleFree.Analyzer.VisitBlock: leak reports and the defers run at the end of a block are not modelled.
- DoubleFree.Analyzer.VisitIf: the two-branch merge uses the merge of several branches, whose steps are the same for two.
- HeaderOrder.SortHeaders: optionals and error unions contained in a type need not come first (`ContainedFirstIff` says when they do).
- Header order: how the members of a type are listed per kind; containment through arrays records no edge.
- Module and header order: adjacency lists and growing arrays are sequences, so sharing between lists is not captured.
- Names: an internal compiler name bypasses uniquifying; the number of assigned names stays below 2^31 - 1.
- Symbol and type mangling, the lexer's keyword and builtin tables, null-pointer and lifetime analysers, the type checker, catalogues, file and console handling.
