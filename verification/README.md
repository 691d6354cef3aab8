# Oleren: a verified model of the compiler

Oleren compiles a small language with `defer`, `errdefer`, error results and `try`/`catch` to C++. This project models
five parts of the compiler and of the code it puts into every program, and proves what they are for.

1. **Lowering** (`Ast`, `Semantics`, `Kinding`, `Cpp`, `Lowering`, `Support`, `Flags`, `Frames`, `Ordering`,
   `Preservation`, `Sample`, `Gaps`, `Cases`, `Names`, `Codegen`). The source language has a big-step meaning in which
   deferred code runs newest first at the end of its block and errdeferred code runs on error exits only. The emitted
   C++ has its own: guard objects on a scope stack, destroyed in reverse order however the scope is left (section 9.6
   [stmt.jump] of ISO/IEC 14882:2017), one mutable flag `_fn_ok`, early returns of wrapped results, GCC statement
   expressions, and operands and arguments evaluated in any order. The emitted program has the same trace, store and
   result for every call, every amount of fuel and every order, so it also runs forever exactly when the source does.
   Calls, `try` and `catch` may stand anywhere in an expression, and leave the function from there. Where the emitter
   departs from the documented meaning, `Gaps` says exactly when. `Codegen.Codegen` is the emitter as it works, one
   pass that appends text and bumps two counters; it writes the text of the lowered program.
2. **The parser and the printer** (`Pratt`, `PrattComplete`, `PrattParser`, `Printer`, `Emission`, `Written`,
   `Readable`, `ProgramParser`). The binding-power parser is sound and complete for an independent definition of
   well-grouped trees; printing with the fewest parentheses and parsing are inverses; no other text needs fewer. The
   emitted text of an expression is read back to its tree, under every ranking of the C++ operators, if and only if
   its assignments and prefix operations stand apart. `PrattParser.Parser` is the expression parser with its two-token
   window and its error flag; `ProgramParser.Parser` is the whole recursive-descent parser without its trees. Both
   terminate on every token list.
3. **Error sets and scopes** (`ErrorSets`, `Scopes`). A program that passes the error-set check never leaves a
   function declared `S!T` with an error that is not a variant of `S`, in the source or in the emitted program. The
   symbol table in flat arrays refines a stack of environments.
4. **Import resolution** (`Resolver`). The depth-first search emits exactly the files reachable from the host, each
   once, dependencies first unless the two files lie on a cycle, and it succeeds exactly if every reachable file can
   be parsed and imports by acceptable paths.
5. **The lexer and the text routines** (`Lexer`, `TokenStream`, `LexBack`, `Strings`, `Formatter`, `RawString`). The
   held token puts a NEWLINE between two tokens exactly when it should; token lists written out are lexed back to
   themselves; split, join, count and replace obey their algebra; the two formatters agree; raw string literals are
   read back as the text they were written for.

`Options` and `Seqs` hold the option type and laws of concatenation.

`dafny verify dfyconfig.toml` checks everything.

## How the model is cut

- Lowering covers blocks, `if`/`elif`/`else`, `when`, `while`, `break`, `continue`, declarations, assignment, `defer`,
  `errdefer`, `try`, `catch` in its three forms, `ret`, printing, variables declared at top level, and calls between
  functions, recursive ones included. All of these nest in one another: operands, arguments, conditions and patterns
  are expressions of any kind. `and` and `or` skip their right operand. What the other operators make of the values of
  their operands is a parameter of the world a program runs in. Loops, calls and deferred code use up fuel; all
  theorems hold for every amount of it and for every plain value of the top-level variables.
- C++ leaves the order of operands and arguments open (sections 4.6 [intro.execution] and 8.2.2 [expr.call] of
  ISO/IEC 14882:2017). In `Cpp.TWorld` a function `pick` chooses the next operand at every moment of a run; the
  theorems hold for each such function. With `ltr` they speak of a compiler that goes from left to right, and then the
  condition on operands below is not asked.
- A function whose text uses `_fn_ok` without declaring it is no C++; `Cpp.TCallFn` does not run it.
- `Kinding.KProgram` says that variables and operands hold plain values and that an error result is consumed by `try`
  or `catch` or returned. A name that `catch |e|` binds is used for errors only, throughout its function.
- `Support.SProgram` is the fragment for which the emitter is right, as a check on the syntax: errdefers at the top
  level of the body of a function that returns errors (the flag is only declared for those,
  src/codegen/codegen.c:192-198); where errdefers exist, operands of `ret` that cannot end in an error unless they are
  written `err.X` or `Set.X`; no `try`, `ret`, `break` or `continue` that leaves deferred code; a catch block used as
  a value leaves the function; a function that returns a value does not run off its end; no fallback with an effect in
  statement position; pure `when` subjects and patterns; at most one operand or argument of an operation that does
  more than read variables, that one without assignments unless it is alone, and no top-level variable read beside a
  call; no assignment as an operand or target and no prefix operation in front of a postfix one
  (src/codegen/codegen.c:831-958), and no doubled `-` or `&`.
- What happens without a condition: `Flags.UndeclaredFlag` says exactly when the flag is used but not declared. `Gaps`
  says exactly when source and emitted code agree for nested errdefers where the flag exists (`NestedErrDefer`), any
  operand of `ret` (`ErrDeferAtRet`), `ret` in deferred code (`RetInDefer`), catch blocks as values
  (`CatchBlockValue`), fallbacks in statement position (`StatementFallback`), any `when` subject (`WhenSubject`,
  `WhenSubjectTwice`), operands from right to left (`OperandsBackwards`) and two operands in any order
  (`TwoOperands`). `Cases` has a program for each. `Emission.ReadBackIff` and `Emission.PrefixesStayApart` say exactly
  when the text is read as it was meant. `break` and `continue` in deferred code have no member, as the emitted lambda
  would not compile; nor has `try` there, which gives the lambda a result that it does not return on its other paths.
- In the expression parser a block behind `catch` is one token, as its contents belong to the statement parser.
- Fixed tables (visited files, symbols, scopes) are modelled as arrays of their fixed size, and the theorems about
  them ask that the program fits.

## Where the code and its documentation disagree

- docs/Language.md:1355-1360 gives a catch block the value of its last expression, and -1 in the example. The emitted
  code discards that value and reads the empty value slot, which is 0 (src/codegen/codegen.c:976-1003). See
  `Gaps.CatchBlockValue` and `Cases.CatchBlockLosesValue`.
- docs/Language.md:849-861 lets errdeferred code run "on any error below". With `ret try f()`, `ret f()`, `ret e` for a
  caught error, `ret f() catch { ret err.X }` or a `ret` in deferred code it does not, because `_fn_ok` is set first
  (src/codegen/codegen.c:1267-1285). See `Gaps.ErrDeferAtRet`, `Gaps.RetInDefer` and the programs in
  `Cases.RetTryLosesCleanup`, `Cases.HandlerLosesCleanup` and `Cases.DeferredRetLosesCleanup`.
- An errdefer that stands in a nested block only, or in a function that returns no errors, is emitted as a guard that
  reads `_fn_ok`, which is declared for top-level errdefers of functions that return errors only
  (src/codegen/codegen.c:192-198 and 1852-1860). That C++ does not compile. See `Flags.UndeclaredFlag` and
  `Cases.FlagsUndeclared`.
- docs/Language.md:924-930 shows a block standing alone as a statement; as far as the source can be read, the parser
  takes an opening brace there for a brace literal (src/parser/parser.c:1087-1126). No member states this. The lowering
  model gives blocks their documented meaning wherever the parser does build one.
- An assignment has no parentheses of its own (src/codegen/codegen.c:946-958): `(x = a) + b` is emitted as
  `(x = a + b)`. A prefix operation in front of a postfix operator, as in `(*p).f`, is emitted as `*p.f`, which C++
  reads as `*(p.f)`; `-(-x)` is emitted as `--x` (src/codegen/codegen.c:831-905). See `Emission.ReadBackIff`,
  `Emission.AssignedOperand`, `Emission.PrefixedTarget` and `Emission.PrefixesStayApart`.
- The order in which the operands of `counter + bump()` are evaluated matters if `bump` sets the top-level variable
  `counter`, and C++ leaves it open. See `Gaps.TwoOperands` and `Cases.GlobalShows`.
- A wrong symbol behind `op fn` is complained about but `had_error` stays as it was, so parsing counts as successful
  (src/parser/parser.c:1174-1190); see `ProgramParser.Parser.TakeAny`.
- The error-set check does not see `try` of a function with a generic `!T` (src/sema/check.c:616-631), plain `ret f()`
  and `ret e` of a caught error (src/sema/check.c:538-568), and anything inside a tuple, which `walk` passes by
  (src/sema/check.c:581-871). For each, the function leaks exactly what the called function leaks; see
  `ErrorSets.TryEscapesIff`, `CallEscapesIff`, `CaughtEscapesIff`, `TupleEscapesIff` and the program in `BlindEscapes`.

## Model

| member | source | states |
|---|---|---|
| Preservation.LoweringPreservesCalls | src/codegen/codegen.c:1259-1597 | calling any function of a supported program with any plain arguments and any plain values of the top-level variables: the emitted program ends with the same value, trace and store, for every amount of fuel and every order of operands, and runs out of fuel exactly when the source does |
| Preservation.FlagAtErrDefer | src/codegen/codegen.c:1524-1547 | whenever the guard of an errdefer is destroyed, `_fn_ok` is true exactly if the function is being left with a success |
| Preservation.SimFn | src/codegen/codegen.c:1748-1897 | one function body with its flag and implicit success return agrees with the source call |
| Preservation.SimList | src/codegen/codegen.c:1868-1870 | a statement list in any place (loop, branch, handler, deferred code) agrees with the unwound scope it is lowered to, outcome, state and flag |
| Preservation.SimGuard | src/codegen/codegen.c:1506-1547 | a `defer` or `errdefer` and all that follows it agree with the guard declared there and its destruction |
| Preservation.SimRet | src/codegen/codegen.c:1266-1296 | `ret` in every form: the flag is set before a success and only before a success, and what follows is dead |
| Preservation.SimX | src/codegen/codegen.c:802-1003 | every supported expression, with calls, `try`, `catch` and assignments at any depth, agrees with what it is lowered to, whether it yields a value or leaves from inside an operand |
| Preservation.SimOperands | src/codegen/codegen.c:638-644 | the operands of one operation, of which at most one does anything, end alike left to right and in any order |
| Preservation.SimLogic | src/codegen/codegen.c:802-830 | `and` and `or` evaluate their right operand in the same cases |
| Frames.NoWritesKeeps | src/codegen/codegen.c:966-1003 | an expression without assignments whose handler blocks leave has changed no local variable by the time it yields a value, whatever it calls, and no variable at all if it calls nothing |
| Frames.CallKeeps | src/codegen/codegen.c:1748-1897 | a call changes no variable that was there before, but for those declared at top level |
| Ordering.AnyOrder | src/codegen/codegen.c:638-644 | picking operands in any order gives the values and the state that left to right gives, if at most one of them does anything |
| Preservation.SimInOrder | src/codegen/codegen.c:638-644 | with a compiler that goes from left to right, operands with any effects agree with the source |
| Sample.SampleIsCovered | src/codegen/codegen.c:1748-1897 | a program with recursion, calls and `try` inside operands, arguments and conditions and an errdefer is in the fragment, whatever the order |
| Preservation.SimTry | src/codegen/codegen.c:966-975 | `try` yields the value or leaves the caller with the error, and so does its early return |
| Preservation.SimCatch | src/codegen/codegen.c:976-1003 | a catch block that leaves the function agrees with the lowered handler, captured variable included |
| Preservation.SimDrop | src/codegen/codegen.c:1548-1597 | expressions, `try` and `catch` as statements agree with what they are lowered to |
| Preservation.SimIf | src/codegen/codegen.c:1045-1077 | an `if` chain takes the same branch and ends alike |
| Preservation.SimArms | src/codegen/codegen.c:1193-1257 | a `when` with a pure subject takes the same arm although the subject is evaluated again beside each pattern, in either order |
| Flags.UndeclaredFlag | src/codegen/codegen.c:192-198 | an emitted function uses `_fn_ok` without declaring it if and only if an errdefer stands in its body at some depth, but none at the top level of a function that returns errors |
| Flags.SupportedCompiles | src/codegen/codegen.c:1852-1860 | every supported function declares the flag if it uses it |
| Preservation.SimWhile | src/codegen/codegen.c:1405-1418 | every round of a `while` agrees, `break` and `continue` included |
| Preservation.FullBodyLowered | src/codegen/codegen.c:1884-1893 | the implicit success return of a `!void` function is what lowering an explicit `ret` at the end would write |
| Support.LeavesIsLeft | src/codegen/codegen.c:976-1003 | a block that syntactically always leaves the function never runs off its end in any run |
| Kinding.KindCall | src/codegen/codegen.c:966-1003 | in every run of a disciplined program a call yields what its declared result type allows: a plain value, or a result whose error obeys the set |
| Kinding.KindX | src/codegen/codegen.c:802-1003 | an expression yields a plain value or the result of a call, and leaves only with what the function may be left with |
| Kinding.KindList | src/codegen/codegen.c:1259-1597 | every statement list keeps variables plain, error variables holding errors, and exits allowed by the result type |
| Gaps.ErrDeferAtRet | src/codegen/codegen.c:1267-1285 | with any errdefer in front, `ret` of any operand agrees with the source exactly if an error exit is written as `err.X` or `Set.X`, or the cleanup makes no difference |
| Gaps.RetInDefer | src/codegen/codegen.c:1506-1547 | with `defer { ret v }` in between as well, exactly if both are errors by their shape, or the cleanup makes no difference |
| Cases.RetTryLosesCleanup | src/codegen/codegen.c:1267-1285 | a concrete body, `errdefer` and `ret try`, whose cleanup the emitted code does not run |
| Cases.HandlerLosesCleanup | src/codegen/codegen.c:976-1003 | the same for `ret err.X` in a handler block under `ret` |
| Cases.DeferredRetLosesCleanup | src/codegen/codegen.c:1506-1547 | the same for a `ret` in deferred code |
| Gaps.NestedErrDefer | src/codegen/codegen.c:1524-1547 | where the flag is declared, an errdefer in a nested block agrees exactly if the rest of the block leaves the function or never ends, or the cleanup makes no difference |
| Cases.NestedRunsCleanup | src/codegen/codegen.c:1524-1547 | a nested block whose cleanup the emitted code runs without an error |
| Cases.FlagsUndeclared | src/codegen/codegen.c:192-198 | two functions whose emitted text uses a flag that is not declared |
| Gaps.CatchBlockValue | src/codegen/codegen.c:976-1003 | a catch block as a value agrees exactly if there is no error, or the block leaves, or its value is 0 |
| Cases.CatchBlockLosesValue | docs/Language.md:1355-1360 | the documented -1 is 0 in the emitted program |
| Gaps.StatementFallback | src/codegen/codegen.c:1559-1590 | a fallback in statement position agrees exactly if there is no error or evaluating the fallback changes nothing |
| Cases.FallbackLost | src/codegen/codegen.c:1559-1590 | a statement whose fallback prints in the source only |
| Gaps.WhenSubject | src/codegen/codegen.c:1193-1257 | with any subject that is no assignment and any arms, the emitted chain does what evaluating the subject once per pattern does, and agrees exactly if that ends like the `when` |
| Gaps.WhenSubjectTwice | src/codegen/codegen.c:1193-1257 | if the first pattern matches they agree whatever the other arms are; if not, and no later body does anything, exactly if evaluating the subject again leaves the state as it was |
| Cases.SubjectTwice | src/codegen/codegen.c:1193-1257 | a subject that prints once in the source and twice in the emitted code |
| Gaps.OperandsBackwards | src/codegen/codegen.c:638-644 | from right to left, the operands of any operation or call have the right-to-left meaning, whatever they do, and agree with the source exactly if both orders end alike |
| Gaps.TwoOperands | src/codegen/codegen.c:802-830 | two operands agree with the source under every order if and only if both orders end alike |
| Cases.GlobalShows | src/codegen/codegen.c:2393-2425 | a top-level variable read beside a call that sets it: the two orders give 1 and 8 |
| Cases.OrderShows | src/codegen/codegen.c:802-830 | two operands that print show the order |
| Names.FreshTemps | src/codegen/codegen.c:966-1003 | the temporaries declared by a lowered list, in operands, arguments and patterns too, are exactly the next numbers of the counter, each once |
| Names.TempsDistinct | src/codegen/codegen.c:37-46 | within one emitted function all `_r_N` are pairwise distinct, whatever is nested in what |
| Names.GuardsOfScope | src/codegen/codegen.c:1506-1547 | no two guards of one C++ scope share a number, although the counter moves only after the guarded code is written |
| Codegen.Codegen.EmitFn | src/codegen/codegen.c:1748-1897 | the text appended for a function is the text of its lowering, with the counters and flags reset |
| Codegen.Codegen.EmitStmts | src/codegen/codegen.c:1868-1870 | the statement loop appends the text of the lowered list and leaves the counters where lowering leaves them |
| Codegen.Codegen.EmitStmt | src/codegen/codegen.c:1259-1597 | the same for one statement of any kind |
| Codegen.Codegen.EmitRet | src/codegen/codegen.c:1266-1296 | the same for `ret`, with `_fn_ok` set for what does not look like an error |
| Codegen.Codegen.EmitErrDefer | src/codegen/codegen.c:1524-1547 | the same for an errdefer guard, its number taken before its body is written |
| Codegen.Codegen.EmitExpr | src/codegen/codegen.c:582-1008 | the same for expressions: operands are emitted in text order and move the counters |
| Codegen.Codegen.EmitBinary | src/codegen/codegen.c:802-830 | the same for a binary operation, always in parentheses |
| Codegen.Codegen.EmitArgs | src/codegen/codegen.c:638-644 | the same for the loop over arguments, with commas between them |
| Codegen.Codegen.EmitTry | src/codegen/codegen.c:966-975 | the same for `try` |
| Codegen.Codegen.EmitCatch | src/codegen/codegen.c:976-1003 | the same for a catch block |
| Codegen.Codegen.EmitIfChain | src/codegen/codegen.c:1045-1077 | the same for an `if` chain |
| Codegen.Codegen.EmitWhenChain | src/codegen/codegen.c:1193-1257 | the same for the loop over the arms of a `when` |
| Pratt.ParseSound | src/parser/parser.c:248-576 | an accepted token list splits into the tokens of the tree and the rest; the tree is well grouped at the demanded strength; the parser stops at the first token too weak |
| PrattComplete.Complete | src/parser/parser.c:248-576 | the tokens of any well-grouped tree are parsed back to that tree |
| PrattComplete.ParseExact | src/parser/parser.c:217-246 | the parser accepts with tree t and rest r if and only if the tokens are those of t followed by r, t is well grouped and can stop there |
| PrattComplete.Unambiguous | src/parser/parser.c:217-246 | two well-grouped trees with the same tokens are the same tree |
| Printer.PrintParse | src/parser/parser.c:446-573 | printing with minimal parentheses and parsing gives the same expression back, in front of anything that ends an expression |
| Printer.Fewest | src/parser/parser.c:217-246 | any text that parses to an expression has at least as many parentheses as the printed one |
| Printer.ArithmeticAssociatesLeft | src/parser/parser.c:217-246 | operators of one level associate to the left, whatever stronger operands stand between them |
| Printer.AssignmentAssociatesRight | src/parser/parser.c:217-246 | assignment associates to the right |
| PrattParser.Parser.ParseExprBp | src/parser/parser.c:248-576 | on every token list the looping parser terminates with the tree, the rest and the error flag of the specification |
| PrattParser.Parser.NextTok | src/parser/parser.c:16-23 | the window slides by one token and stays at the end of the input |
| PrattParser.Parser.ParseTurn | src/parser/parser.c:446-573 | one turn of the loop does one step of the specification |
| PrattParser.Parser.ParseArgList | src/parser/parser.c:455-475 | the argument loop collects what the specification collects, trailing comma and errors included |
| PrattParser.Parser.SkipNewlineTokens | src/parser/parser.c:102-106 | all newline tokens at hand, which stand for semicolons as well, are skipped and counted |
| ProgramParser.Parser.ParseProgram | src/parser/parser.c:1238-1284 | on every token list the whole parser terminates at the end of the input; without a recorded error the brackets of the program match |
| ProgramParser.Parser.ParseBlock | src/parser/parser.c:1128-1141 | a block takes at least one token, never gives one back, keeps errors, and without one leaves the brackets as they were |
| ProgramParser.Parser.ParseStmt | src/parser/parser.c:1087-1126 | the same for a statement of any kind |
| ProgramParser.Parser.ParseWhenArm | src/parser/parser.c:1036-1070 | the same for an arm of a `when` |
| ProgramParser.Parser.ParseBraceLiteral | src/parser/parser.c:832-870 | the same for both brace literals |
| ProgramParser.Parser.ParseExprBp | src/parser/parser.c:248-576 | the same for expressions over the full token set |
| ProgramParser.Parser.ParseType | src/parser/parser.c:112-196 | a type never gives a token back; it may take none, and then an error is recorded |
| ProgramParser.Parser.ParseFnDecl | src/parser/parser.c:1160-1203 | a function declaration takes at least one token and keeps the brackets |
| ProgramParser.Parser.ParseImportBlock | src/parser/parser.c:619-662 | the import block terminates on every token list, takes at least its keyword and keeps the brackets |
| ProgramParser.Parser.TakeAny | src/parser/parser.c:1174-1190 | any token is taken as an operator name and no error is recorded |
| Emission.CppReads | src/codegen/codegen.c:802-830 | the ranking of C++ is such a table |
| Emission.RankingsDiffer | src/codegen/codegen.c:802-830 | without parentheses `a == b < c` is two different trees in Oleren and in C++ |
| Emission.ReadsAs | src/codegen/codegen.c:802-958 | how the text of any expression without `try` and `catch` is read, assignments included |
| Emission.ReadBackIff | src/codegen/codegen.c:802-958 | it is read back to its tree if and only if no assignment is an operand or a target and no prefix operation or integer literal stands in front of a postfix operator |
| Emission.EmissionIgnoresPrecedence | src/codegen/codegen.c:802-841 | any two rankings of the binary operators read the text as the same tree, which is the one that was meant where assignments and prefix operations stand apart |
| Emission.FieldReadIff | src/codegen/codegen.c:842-895 | the text of `x.f` is read back to its tree if and only if x is no prefix operation, integer literal or assignment |
| Emission.AssignedOperand | src/codegen/codegen.c:946-958 | `(x = a) op r` is read as `x = (a op r)` |
| Emission.PrefixedTarget | src/codegen/codegen.c:831-895 | `(*p).f` is read as `*(p.f)` |
| Written.TextIsEmitted | src/codegen/codegen.c:582-958 | the words that the emitter appends for an expression are these tokens |
| Written.TextReadBack | src/codegen/codegen.c:582-958 | the appended text is read back under the same condition |
| Readable.SupportedIsRead | src/codegen/codegen.c:802-958 | supported expressions without `try` and `catch` are read back to their trees |
| Emission.PrefixesStayApart | src/codegen/codegen.c:831-841 | in such an expression a prefix operator merges with the first token of its operand if and only if both are the same `-` or `&` |
| ErrorSets.ErrorSetSoundness | src/sema/check.c:538-568 | in every run of a program that passes, a function declared `S!T` yields a value or a declared variant of S |
| ErrorSets.EmittedErrorSetSoundness | src/sema/check.c:616-631 | the same for every run of the emitted program |
| ErrorSets.CheckedProgram | src/sema/check.c:943-961 | zero reported errors make the program obey the strict discipline, in which errors keep to their sets |
| ErrorSets.TryEscapesIff | src/sema/check.c:616-631 | `ret try g()` passes if and only if g is not declared with another named set, and is left with an error outside its set if and only if g is |
| ErrorSets.CallEscapesIff | src/sema/check.c:538-568 | `ret g()` always passes and leaks exactly what g leaks |
| ErrorSets.CaughtEscapesIff | src/sema/check.c:633-643 | returning a caught error always passes and leaks exactly what g leaks |
| ErrorSets.TupleEscapesIff | src/sema/check.c:581-871 | `try` inside a tuple always passes and leaks exactly what g leaks |
| ErrorSets.SameSetNeverEscapes | src/sema/check.c:616-631 | if g is declared with the same set and the program passes, nothing leaks |
| ErrorSets.BlindEscapes | src/sema/check.c:616-631 | a program that passes in which all four leak |
| Scopes.WalkKeepsScopes | src/sema/check.c:581-871 | walking any tree leaves outer scopes untouched and grows the current one at its end only; blocks, loops, for-each and handlers restore even that |
| Scopes.FlatFind | src/sema/check.c:224-238 | searching the flat table from its end finds what innermost-first search through the scopes finds |
| Scopes.FnBodyRestores | src/sema/check.c:873-887 | checking a function body restores the scopes it started from |
| Scopes.Check.Walk | src/sema/check.c:581-871 | on the flat arrays the walk leaves the scopes, the errors and the used imports that the stack of environments says |
| Scopes.Check.PushScope | src/sema/check.c:186-191 | a mark is set and an empty scope opened |
| Scopes.Check.PopScope | src/sema/check.c:193-198 | the symbol count falls back to the mark and the innermost scope is gone |
| Scopes.Check.Declare | src/sema/check.c:200-222 | a symbol is added to the innermost scope; a name that shadows an import alias is an error |
| Scopes.Check.FindSym | src/sema/check.c:224-230 | the innermost latest declaration is found |
| Scopes.Check.MarkImportUsed | src/sema/check.c:266-272 | exactly the imports of that name are marked, unless a local hides it |
| Resolver.MergeEmitsReachable | src/module/resolver.c:175-224 | on success the declarations are the files reachable from the host by local imports, each once, never the host |
| Resolver.MergeOrders | src/module/resolver.c:175-224 | for an import u to v between emitted modules v comes first unless v can reach u |
| Resolver.MergeSucceedsIff | src/module/resolver.c:226-266 | with room for all files resolution succeeds if and only if every reachable file parses and imports by acceptable paths |
| Resolver.DfsSearches | src/module/resolver.c:175-224 | every search emits exactly what it newly visits and visits all imports of what it emits |
| Resolver.DfsOrders | src/module/resolver.c:175-224 | files whose imports are in progress lead to the current one, which keeps the emitted list in order |
| Resolver.ImportCtx.ResolveLocalRec | src/module/resolver.c:175-224 | the recursive loop over the visited table terminates on every graph and does what the search says |
| Resolver.ImportCtx.SeenBefore | src/module/resolver.c:160-165 | the table is searched completely |
| Resolver.ImportCtx.Add | src/module/resolver.c:167-173 | the table grows by one path and stays free of duplicates |
| Resolver.MergeImports | src/module/resolver.c:254-266 | from the host on: completeness, order and the condition of success for the returned list |
| Lexer.Lexer.Next | src/lexer/lexer.c:221-245 | each call takes the head of the stream of plain tokens with NEWLINEs woven in; the end is returned again and again |
| Lexer.LexAll | src/lexer/lexer.c:221-245 | calling until the end gives the whole woven stream |
| Lexer.Lexer.LexOne | src/lexer/lexer.c:95-219 | one token with its place, as the specification by positions gives it, line and column of its first character included |
| Lexer.Lexer.LexString | src/lexer/lexer.c:106-129 | single and triple quoted strings end where the specification says, escapes and missing ends included |
| Lexer.Lexer.LexSymbol | src/lexer/lexer.c:182-218 | the switch finds the longest symbol of the table |
| Lexer.Lexer.LexDigits | src/lexer/lexer.c:155-179 | hexadecimal, binary, integer and float literals |
| Lexer.Lexer.SkipWsAndComments | src/lexer/lexer.c:27-37 | the position after white space and comments, line and column with it |
| Lexer.Lexer.Adv | src/lexer/lexer.c:19-25 | line and column stay those of the prefix read |
| TokenStream.StreamErases | src/lexer/lexer.c:221-245 | without its NEWLINEs the stream is the plain token list |
| TokenStream.NewlineBetween | src/lexer/lexer.c:79-92 | between two neighbours stands exactly one NEWLINE if the earlier can end a statement and the gap holds a line break, else nothing |
| TokenStream.NewlinesApart | src/lexer/lexer.c:234-240 | a NEWLINE is never first, last or next to another |
| TokenStream.SkipBlank | src/lexer/lexer.c:27-37 | a gap holds white space and comments only and ends in front of neither |
| TokenStream.ItemsTile | src/lexer/lexer.c:95-219 | gaps and tokens tile the text |
| TokenStream.PlacesDiffer | src/lexer/lexer.c:19-25 | line and column together name a place |
| LexBack.LexerRoundTrip | src/lexer/lexer.c:95-245 | a well-formed token list written out with spaces and line breaks is lexed back to the same kinds and texts |
| LexBack.ReadBack | src/lexer/lexer.c:95-219 | every spellable token in front of a space is read back whole |
| Strings.SplitLoop | src/codegen/stdlib_impl.h:298-302 | the loop gives the pieces between the leftmost occurrences, single characters for an empty separator |
| Strings.JoinLoop | src/codegen/stdlib_impl.h:303-304 | the loop puts the separator between neighbours |
| Strings.CountLoop | src/codegen/stdlib_impl.h:325-327 | the count is one less than the number of parts, 0 for an empty text |
| Strings.ReplaceLoop | src/codegen/stdlib_impl.h:294-297 | the loop that edits in place ends, and gives the parts joined by the new text even if that contains the old |
| Strings.FindsFirst | src/codegen/stdlib_impl.h:298-302 | a search result is right if and only if it is the first occurrence, or there is none |
| Strings.JoinSplit | src/codegen/stdlib_impl.h:298-304 | joining what was split gives the text back for every separator |
| Strings.NoPartContains | src/codegen/stdlib_impl.h:298-302 | no part contains the separator |
| Strings.SplitJoin | src/codegen/stdlib_impl.h:298-304 | splitting what was joined gives the parts back if and only if no separator starts inside a part |
| Strings.SplitJoinChar | src/codegen/stdlib_impl.h:298-304 | for one character: if and only if no part holds it |
| Strings.CountParts | src/codegen/stdlib_impl.h:325-327 | the count is one less than the number of parts if and only if the separator is not empty or the text is one character |
| Strings.CountIsGreatest | src/codegen/stdlib_impl.h:325-327 | no choice of occurrences without overlap has more |
| Strings.ReplaceSize | src/codegen/stdlib_impl.h:294-297 | every occurrence changes the length by the same amount |
| Strings.ReplaceBack | src/codegen/stdlib_impl.h:294-297 | replacing back restores the text if the new text starts nowhere else |
| Strings.ReplaceStopsIff | src/codegen/stdlib_impl.h:294-297 | the loop ends if and only if the text looked for is not empty |
| Formatter.ScanLoop | src/codegen/codegen.c:430-478 | the scanner's pieces are those of a character-by-character reading with literals merged and none of them empty |
| Formatter.PrintLoop | src/codegen/stdlib_impl.h:13-23 | the run-time loop prints what the reading by positions says |
| Formatter.FormattersAgree | src/codegen/codegen.c:430-478 | with enough arguments both formatters print the same, whatever interpolated expressions print, if and only if the format interpolates none |
| Formatter.ScanWritten | src/codegen/codegen.c:430-478 | a format written from text, doubled braces and slots is read as it was meant |
| Formatter.WrittenAgree | src/codegen/stdlib_impl.h:13-23 | on such formats both print the same with enough arguments |
| Formatter.DoublingQuotes | src/codegen/stdlib_impl.h:13-23 | formatting a text with doubled braces gives the text, by either formatter |
| RawString.EmitLiteral | src/codegen/codegen.c:586-600 | the first delimiter whose terminator is not in the text is taken; nothing is emitted if and only if all ten are in it |
| RawString.RawRoundTrip | src/codegen/codegen.c:596-600 | what is emitted is read back as the text by section 5.13.5 [lex.string] of ISO/IEC 14882:2017, whatever follows |
| RawString.FoundAtEnd | src/codegen/codegen.c:590-596 | a terminator absent from the text is not found across its end either |
| RawString.ContainedTerminatorCuts | src/codegen/codegen.c:590-596 | a terminator contained in the text would cut it short |

## Left out

- Text layout: the emitted text is a list of words; indentation, types, includes and helper code are not modelled, and the lexing of emitted C++ only as far as `Emission.PrefixesStayApart` goes.
- Arithmetic: what operators compute, and overflow, is a parameter of the lowering theorem.
- Operands: for a compiler that may pick any order, two operands or arguments with effects, and assignments inside an operand with siblings, are outside the lowering theorem (`Gaps.OperandsBackwards`), also where the two cannot disturb each other; for one that goes from left to right they are inside.
- Lists, maps and sets: not values of the model; a parameter of such a type is a reference in the emitted code (src/codegen/codegen.c:1843-1848), through which a call can change the caller's.
- C++ that does not compile for other reasons: values of calls that return nothing, comparing or printing errors and results, names that nothing declares (they read as no value).
- Initial values of top-level variables, and their groups: the theorems hold for any plain values.
- Memory behind pointers, fields and subscripts: reading through them is a function of the values of the operands; assigning through them is lowered and written out, but is outside the theorems about runs.
- Calls: callees that are not names (methods, module members, `.len()`) are lowered and written out, but are outside the theorems about runs; generic functions and `any` are not lowered.
- `ret` operands that can end in an error, in functions with errdefers: outside the theorem also where no error occurs; `Gaps.ErrDeferAtRet` covers them all.
- Loops: only `while` is lowered; `loop`, `for` ranges and for-each add guards and counters of the same kind.
- `main`: its wrapper that prints an uncaught error is not modelled.
- Result variables: variables hold plain values or caught errors, not whole results.
- `if` and `when` as expressions: not modelled; with more than one `elif` or with `try` inside the emitter does not give them the documented meaning.
- Default arms that are not last: not lowered, as the emitted C++ would not compile.
- Printer.Fewest: leaves out catch with a handler block, whose right edge is closed by the block, so that the strengths of its two sides are not ordered as those of operators are.
- ProgramParser.Parser.ParseProgram: says nothing of the trees built; for expressions `PrattParser` does. Brackets are only promised to match if no bracket stands where any token is accepted, behind `op fn` or in `unn(...)`.
- NULL expressions: a missing expression is the tree `CBad`; the parser's use of its line as an operand of `catch` is not modelled.
- ErrorSets.ErrorSetSoundness: in functions with a named set it asks that `try` operands are direct calls of functions with a named set, `ret` operands are values, `Set.Variant` or calls of functions declared with the same set, and elements of tuples are pure; the check looks at nothing else, and `TryEscapesIff`, `CallEscapesIff`, `CaughtEscapesIff` and `TupleEscapesIff` say what that means.
- Type checks in sema: numeric compatibility, struct fields, argument counts, tuples and destructuring.
- Scopes.Check.Walk: counts the errors of shadowed import aliases, not type errors and error-set errors; it asks that symbols and scopes fit the tables (1024 symbols, 128 scopes); what happens beyond is not modelled.
- Resolver.ImportCtx.ResolveLocalRec: asks that all files fit the visited table of 256 paths; canonical paths and parsed files are given as a graph.
- Resolver.MergeImports: the @std half (src/module/resolver.c:226-252) is not modelled beyond the number of sources it has already counted.
- Lexer.LexAll: asks that no quoted literal reads past the end of the text, and that the text holds no NUL.
- Character classes are those of ASCII.
- Strings.ReplaceLoop: asks for a text to look for that is not empty, as the loop does not end otherwise (`Strings.ReplaceStopsIff`).
- Strings.ReplaceBack: one way only; a text can come back by replacing other occurrences than those put in.
- Formatter.FormattersAgree: asks for enough arguments; for a missing one the scanner writes a comment where C++ needs an operand, and the run-time loop prints nothing.
- Escapes in a literal format: left to the C++ compiler; a backslash in front of a brace is not treated apart.
- Processes, files, times, package configuration, the gdev and crypt backends, and the thread, path and I/O helpers.
- Memory management of trees and strings.
