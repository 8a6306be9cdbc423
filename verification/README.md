# rslogo in Dafny

A model of the core of `rslogo`, an interpreter for a small turtle-graphics
Logo dialect. The model covers the whole path from text to effect:

- **Lexer** (`Tokenizer::scan`): the program is split into lines. Comment and
  blank lines are skipped. Each remaining line is trimmed and split on ASCII
  whitespace, and every word becomes one token: a keyword, `:variable`,
  `"value`, a bracket or operator, or else a procedure name. A `Space`
  token closes every line.
- **Segmenter** (`ASTParser::parse_statement`): cuts the token stream into
  one group per statement:
  - `IF`/`WHILE` through the matching `]`;
  - `TO` through `END`;
  - anything else through the end of its line.
- **Parsers** (`ParserFactory` and the parsers under `parsers/`): the
  prefix expression parser for operands, and the statement parsers for
  commands, queries, MAKE/ADDASSIGN, IF/WHILE and procedure definitions and
  calls.
- **Evaluator** (`Executable`, `Callable`, `Assignable`, `Heap`): the turtle
  state, the variable map, and the callable registry. The registry creates
  built-ins lazily and stores user procedures. Also covered: the procedure
  frame (shadowed globals are set aside and restored) and the checked 32-bit
  arithmetic of `ValueType`.
- **Transpiler** (`to_python`): renders a parsed program as Python text.

Modelling decisions:

- Every `panic!`, `unwrap` and `expect` of the original becomes an `Err` of a
  `Results.Error`. Arithmetic that overflows `i32` gives `Err(Overflow)`.
- `f32` arithmetic, comparison, parsing and printing are left abstract, as
  the `Floats.FloatOps` record.
- Drawing a line on the image is a parameter of the environment
  (`Env.line`), and so is the size of the colour palette (`Env.paletteSize`).
- The evaluator takes a `fuel` argument that is spent on every WHILE
  iteration and every procedure call. A run that uses it up ends in
  `Err(OutOfFuel)`. The `FuelFacts` module proves that once a run finishes,
  more fuel does not change its result.

Where the written description and the code differ, the model follows the
code:

- AND and OR evaluate both operands before combining them
  (`ast.rs:159-203`). The operands' errors are therefore never
  short-circuited.
- Only the `Bool` checks of the second operand are skipped.
- A command evaluates only its first argument.
- PENUP and PENDOWN evaluate nothing.
- A `Bool` passed to a movement command, SETX or SETY is ignored and changes
  nothing.
- A procedure cannot be given the name of a built-in: the lexer turns such a
  word into the built-in's token first.
- The Python name of the COLOR query is `pendown`, the same as the PENDOWN
  command.
- A nested call is rendered with its trailing newline inside the enclosing
  argument list.
- After a call, a formal that had no global value before the call stays
  bound to its argument. Variables the body creates also stay bound.
- A colour is valid when `0 <= colour < paletteSize`. It is checked only when
  the turtle draws.

## Model

| member | source | states |
|---|---|---|
| Numerals.ParseI32 | rslogo/src/tokens.rs:372-376 | A word is read as an `i32` exactly when it is decimal digits, optionally after one `+` or `-`, whose signed value fits in `i32`; the value is then that signed value, and a bare sign is rejected |
| Numerals.DigitsOfShowNat | rslogo/src/tokens.rs:372-376 | The decimal digits written for a natural number are read back as that number |
| Numerals.ParseShowInt | rslogo/src/tokens.rs:372-376 | Writing an `i32` and parsing it gives back the same integer |
| Literals.CheckedInt | rslogo/src/tokens.rs:32-40 | A mathematical result is accepted exactly when it fits in `i32`; otherwise it is the overflow error |
| Literals.TruncDiv | rslogo/src/tokens.rs:44-52 | Integer division truncates toward zero: the remainder is smaller than the divisor and carries the sign of the dividend |
| Literals.TruncDivRemainder | rslogo/src/tokens.rs:44-52 | The remainder of truncating division is the Euclidean remainder of the magnitudes, signed like the dividend |
| Literals.Add | rslogo/src/tokens.rs:32-40 | Two ints add with overflow checking; an int beside a float is widened to float; a Bool operand is a type error |
| Literals.Sub | rslogo/src/tokens.rs:57-65 | Same widening rule as addition, with checked `i32` subtraction |
| Literals.Mul | rslogo/src/tokens.rs:19-27 | Same widening rule, with checked `i32` multiplication |
| Literals.Div | rslogo/src/tokens.rs:44-52 | Int by zero is a division-by-zero error; otherwise the quotient truncates toward zero and any other failure is overflow; floats divide after widening |
| Literals.Equal | rslogo/src/tokens.rs:69-78 | Equality fails exactly when one side is Bool and the other is not; ints and Bools compare by value; a mixed int/float pair compares after widening |
| Literals.NotEqual | rslogo/src/tokens.rs:69-78 | NE fails exactly when EQ fails, and is otherwise its negation |
| Literals.Greater | rslogo/src/tokens.rs:104-112 | GT is a type error exactly when a Bool is involved; ints compare by value, and mixed pairs after widening |
| Literals.Less | rslogo/src/tokens.rs:122-130 | LT is a type error exactly when a Bool is involved; ints compare by value, and mixed pairs after widening |
| Literals.ExpectInt | rslogo/src/commands.rs:25-37 | An int is itself, a Bool is none, and a float counts exactly when truncating it loses nothing |
| Literals.ExpectFloat | rslogo/src/commands.rs:38-44 | Any number is read as a float (ints widened), and a Bool is not |
| Literals.ExpectBool | rslogo/src/commands.rs:45-50 | Only a Bool literal is read as a Bool, as its own value |
| Literals.ExpectIntImpliesFloat | rslogo/src/commands.rs:25-44 | Anything usable as an int is usable as a float, and an int's float reading is its widening |
| Lexer.TrimStart | rslogo/src/tokens.rs:292-298 | Trimming removes a prefix made only of whitespace and leaves no leading whitespace |
| Lexer.TrimEnd | rslogo/src/tokens.rs:292-298 | Trimming removes a suffix made only of whitespace and leaves no trailing whitespace |
| Lexer.WordSpan | rslogo/src/tokens.rs:298 | A word runs up to the first ASCII whitespace character |
| Lexer.Words | rslogo/src/tokens.rs:298 | Splitting on ASCII whitespace yields only non-empty words free of whitespace |
| Lexer.IndexOfNewline | rslogo/src/tokens.rs:291 | A line ends at the first newline of the text |
| Lexer.Lines | rslogo/src/tokens.rs:291 | The text splits into no lines exactly when it is empty, and no line holds a newline |
| Lexer.ScanLine | rslogo/src/tokens.rs:291-302 | A line gives no tokens exactly when it is skipped, and otherwise its tokens end with `Space` |
| Lexer.ScanLines | rslogo/src/tokens.rs:290-303 | The lines give no tokens exactly when every line is skipped, and otherwise the tokens end with `Space` |
| Lexer.Scan | rslogo/src/tokens.rs:290-303 | The tokens of a program are empty or end with the `Space` of its last kept line |
| Lexer.AsciiLowercase | rslogo/src/tokens.rs:381-383 | Lower-casing maps each character on its own and keeps the length |
| Lexer.ScanQuoted | rslogo/src/tokens.rs:370-393 | A quoted word is the int it spells if it parses as `i32`, else the float it parses to, else `true`/`false` in any case as that Bool, else a variable of that name |
| Lexer.ScanToken | rslogo/src/tokens.rs:310-325 | Keywords win, a word is a procedure name exactly when no other rule applies, and only newline/tab/CRLF words give `Space` |
| Lexer.ScanWords | rslogo/src/tokens.rs:298-300 | Every word of a line becomes exactly one token, in order |
| LexerFacts.WordIsNotSpace | rslogo/src/tokens.rs:395-408 | A word produced by the splitter never scans to `Space` |
| LexerFacts.ScanLineShape | rslogo/src/tokens.rs:291-302 | A skipped line gives no tokens; any other line gives its words' tokens followed by one `Space` |
| LexerFacts.SpaceCountOfLine | rslogo/src/tokens.rs:291-302 | A line contributes one `Space` when it is kept and none when it is skipped |
| LexerFacts.SpaceCountOfWords | rslogo/src/tokens.rs:298-300 | The tokens of a line's words contain no `Space` |
| LexerFacts.SpaceCountOfLines | rslogo/src/tokens.rs:290-303 | The number of `Space` tokens is the number of kept lines |
| LexerFacts.SpaceCountOfScan | rslogo/src/tokens.rs:290-303 | Over a whole program, the `Space` tokens count exactly the non-comment, non-blank lines |
| LexerFacts.WordSpanOfWord | rslogo/src/tokens.rs:298 | A word followed by whitespace or the end is taken whole |
| LexerFacts.WordsOfUnwords | rslogo/src/tokens.rs:298 | Words joined by single spaces split back into the same words |
| LexerFacts.KeywordsStartUppercase | rslogo/src/tokens.rs:327-358 | Every keyword spelling starts with an upper-case letter |
| LexerFacts.KeywordSpellingInTable | rslogo/src/tokens.rs:327-358 | Every command, query, keyword, logic and assignment token has a spelling that the keyword table maps back to it |
| LexerFacts.NotKeyword | rslogo/src/tokens.rs:327-368 | Words starting with `:` or `"` are never keywords |
| LexerFacts.ScanUnscanValue | rslogo/src/tokens.rs:370-393 | A literal written as a quoted word scans back to the same literal |
| LexerFacts.ScanUnscan | rslogo/src/tokens.rs:310-408 | Every token that has a word form scans back from that word to itself |
| Ast.NewBinary | rslogo/src/ast.rs:146-157 | A logic token makes a logic operation and a calculation token a calculation, with the same operator |
| Ast.OperatorToken | rslogo/src/ast.rs:146-157 | Every binary operation has a token that the constructor maps back to it |
| Expressions.ParseQuery | rslogo/src/parsers/queries.rs:15-27 | A group parses as a query exactly when it is one query token, and otherwise fails with the error that matches its shape |
| Expressions.ToValue | rslogo/src/parsers.rs:17-33 | Identifiers, values and queries are operands, spelled as that one token; other tokens are not operands |
| Expressions.Leaf | rslogo/src/parsers/binary.rs:14-52 | An operand is the parsed sub-expression if there is one, and otherwise the token's own value; anything else is a not-a-value error |
| Expressions.ParseBinary | rslogo/src/parsers/binary.rs:14-52 | A non-operator leaves the input alone; an operator consumes the spelling of both operands, in prefix order |
| Expressions.ParseOne | rslogo/src/parsers.rs:68-77 | One operand is taken off the front, and the tokens taken are exactly its spelling; empty input is an exhausted-tokens error |
| Expressions.ParseBuffer | rslogo/src/parsers/binary.rs:10-13 | The test buffer parses exactly when one operand can be taken from it; tokens after that operand are ignored |
| Expressions.ParseAll | rslogo/src/parsers/procedures.rs:55-71 | Reading operands to the end of a group gives operands whose spellings make up the group |
| Expressions.ParseSpell | rslogo/src/parsers.rs:68-77 | Parsing the spelling of any operand gives that operand back and leaves the rest untouched |
| Expressions.ParseBinarySpell | rslogo/src/parsers/binary.rs:14-52 | An operator followed by the spellings of two operands parses to that binary expression |
| Expressions.ParseAllSpellAll | rslogo/src/parsers/controls.rs:14-33 | The spellings of a list of operands parse back to the same list |
| Expressions.ParseOneIff | rslogo/src/parsers.rs:68-77 | Taking one operand yields `v` and `rest` if and only if the input is `v`'s spelling followed by `rest` |
| Statements.TakeThroughLeft | rslogo/src/tokens.rs:443-450 | The head of an IF/WHILE group runs up to and including the first `[` |
| Statements.TakeBalanced | rslogo/src/tokens.rs:451-465 | The body is taken through the first `]` that brings the bracket counter to zero (no shorter prefix does), and the token after it is dropped; if none does, the whole rest is taken and the counter stays positive throughout |
| Statements.TakeThroughEnd | rslogo/src/tokens.rs:467-476 | A definition runs through the first END, and the token after END is dropped |
| Statements.TakeLine | rslogo/src/tokens.rs:480-492 | A line statement runs up to its `Space` separator, which is consumed |
| Statements.GroupIfWhile | rslogo/src/tokens.rs:443-466 | An IF/WHILE group is its keyword, the tokens through the first `[`, and then the tokens through the `]` that balances it; the stream goes on after the dropped token |
| Statements.GroupTo | rslogo/src/tokens.rs:467-476 | A TO group runs through the first END after TO: there is no END before its last token, which is END unless the stream ran out |
| Statements.GroupLine | rslogo/src/tokens.rs:480-492 | A line group holds no `Space` after its first token and ends at a `Space` or the end of the stream |
| Statements.NextGroup | rslogo/src/tokens.rs:438-493 | END at the start of a group is an error; every other first token starts a group that is cut off the stream |
| Statements.ParseControls | rslogo/src/parsers/controls.rs:14-63 | A command group parses to a call of that command with exactly the command's number of operands |
| Statements.ParseAssignment | rslogo/src/parsers/variable.rs:15-33 | MAKE/ADDASSIGN, a variable token and one operand; trailing tokens are ignored; empty input is an exhausted-tokens error |
| Statements.CheckBrackets | rslogo/src/parsers/ifwhile.rs:43-55 | An IF/WHILE group is accepted exactly when it has a `[` and as many `]` as `[` |
| Statements.BodyTokens | rslogo/src/parsers/ifwhile.rs:24-42 | The body of an IF/WHILE group is strictly shorter than the group |
| Statements.ProcedureBodyTokens | rslogo/src/parsers/procedures.rs:25-53 | The body of a definition is strictly shorter than the group |
| Statements.ParseParameters | rslogo/src/parsers/procedures.rs:25-53 | The formals are the variable tokens after the name, up to the line's `Space` |
| Statements.ProcedureSyntax | rslogo/src/parsers/procedures.rs:73-94 | TO...END defines; TO without END, and END without TO, are errors; everything else is a call |
| Statements.ParseCall | rslogo/src/parsers/procedures.rs:55-71 | A call names the procedure of its first token, and its operands spell the rest of the group |
| Statements.ParseStatements | rslogo/src/tokens.rs:435-497 | An empty token stream is the empty program |
| Statements.ParseGroup | rslogo/src/parsers.rs:38-64 | The first token picks the parser: commands, assignments, keywords and procedure names each go to their own parser, and any other token is rejected |
| Statements.ParseIfWhile | rslogo/src/parsers/ifwhile.rs:24-42 | No `[` is a missing-bracket error; on success the brackets balance and the test is the operand before the first `[` |
| Statements.ParseProcedure | rslogo/src/parsers/procedures.rs:15-22 | A definition names the token after TO and lists the formals; a call is the call parser's result; a syntax error is passed on |
| StatementFacts.ControlsRoundTrip | rslogo/src/parsers/controls.rs:14-63 | A command followed by spelled operands parses to that call when the number of operands is the command's arity, and is a wrong-arity error otherwise |
| StatementFacts.CallRoundTrip | rslogo/src/parsers/procedures.rs:55-71 | A procedure name followed by any number of spelled operands parses to that call |
| StatementFacts.CallIsNoDefinition | rslogo/src/parsers/procedures.rs:73-94 | Spelled operands never end in END, so such a group is always classed as a call |
| StatementFacts.AssignmentRoundTrip | rslogo/src/parsers/variable.rs:15-33 | MAKE/ADDASSIGN, a variable and a spelled operand parse to that assignment, whatever follows |
| StatementFacts.SameIfWhileParts | rslogo/src/parsers/ifwhile.rs:10-21 | The shared IF/WHILE parser does not look at which keyword starts the group |
| StatementFacts.IfWhileSymmetric | rslogo/src/parsers/ifwhile.rs:10-21 | IF and WHILE accept the same groups, fail with the same error, and produce the same test and body |
| StatementFacts.IfGroupBrackets | rslogo/src/parsers/ifwhile.rs:43-55 | A group written as keyword, operand, `[`, separator, balanced body, `]` passes the bracket check |
| StatementFacts.IfGroupParts | rslogo/src/parsers/ifwhile.rs:24-42 | From such a group the test buffer is the operand's spelling and the body buffer is the body |
| StatementFacts.IfRoundTrip | rslogo/src/parsers/ifwhile.rs:24-55 | Such a group parses to the IF statement of that operand and of the body's statements |
| StatementFacts.DefinitionParses | rslogo/src/parsers/procedures.rs:25-53 | A TO...END group with a name, formals and a parsable body is that procedure's declaration |
| StatementFacts.ProcedureRoundTrip | rslogo/src/parsers/procedures.rs:25-53 | TO, a name, spelled formals, a line break, a body and END parse to that declaration |
| StatementFacts.ParametersRoundTrip | rslogo/src/parsers/procedures.rs:25-53 | Spelled formals followed by a line break read back as the same names |
| StatementFacts.TakeLineOf | rslogo/src/tokens.rs:480-492 | A line followed by `Space` is cut exactly at that `Space` |
| StatementFacts.ParseLineThenRest | rslogo/src/tokens.rs:480-494 | A program that starts with a line statement is that statement's parse followed by the parse of the rest, errors first |
| SegmentFacts.TakeThroughLeftOf | rslogo/src/tokens.rs:443-450 | The scan for `[` stops at the first one and leaves everything after it |
| SegmentFacts.TakeBalancedOf | rslogo/src/tokens.rs:451-465 | After tokens that keep the counter positive and are one `]` short, the counter stops at that `]` and drops the token after it |
| SegmentFacts.TakeThroughEndOf | rslogo/src/tokens.rs:467-476 | The scan for END stops at the first END and drops the token after it |
| SegmentFacts.BodyCloses | rslogo/src/tokens.rs:451-465 | A separator, a body that stays open and balances, then `]`: the counter stops at that `]` |
| SegmentFacts.ControlScanLeft | rslogo/src/tokens.rs:443-450 | The scan for `[` of an IF/WHILE group stops right after its test |
| SegmentFacts.ControlGroupCut | rslogo/src/tokens.rs:443-466 | An IF/WHILE group written out in full is cut off the stream exactly, and the token after its `]` is dropped |
| SegmentFacts.WhileRoundTrip | rslogo/src/parsers/ifwhile.rs:10-55 | A WHILE group written out in full parses to the WHILE statement of that test and body |
| SegmentFacts.IfStream | rslogo/src/tokens.rs:435-497 | A stream that starts with an IF group parses to that IF statement followed by the rest's statements, or the rest's error |
| SegmentFacts.WhileStream | rslogo/src/tokens.rs:435-497 | The same for a stream that starts with a WHILE group |
| SegmentFacts.ProcedureGroupCut | rslogo/src/tokens.rs:467-476 | A definition whose body has no END is cut off the stream at its END, and the token after END is dropped |
| SegmentFacts.DefinitionHasNoEnd | rslogo/src/tokens.rs:467-476 | Before its closing END, such a definition holds no END |
| SegmentFacts.ProcedureStream | rslogo/src/tokens.rs:435-497 | A stream that starts with such a definition parses to that declaration followed by the rest's statements, or the rest's error |
| Turtles.New | rslogo/src/turtle.rs:13-22 | A fresh turtle has its pen up, colour 7 and heading 0 at the given position |
| Turtles.PenUp | rslogo/src/turtle.rs:52-55 | PENUP lifts the pen and keeps position, colour and heading |
| Turtles.PenDown | rslogo/src/turtle.rs:56-59 | PENDOWN lowers the pen and keeps position, colour and heading |
| Turtles.SetColor | rslogo/src/turtle.rs:60-63 | The colour becomes any given `i32`; nothing else changes |
| Turtles.SetX | rslogo/src/turtle.rs:64-67 | The x coordinate becomes the given value; nothing else changes |
| Turtles.SetY | rslogo/src/turtle.rs:68-71 | The y coordinate becomes the given value; nothing else changes |
| Turtles.SetDirection | rslogo/src/turtle.rs:76-79 | The heading becomes the given value without normalisation; nothing else changes |
| Turtles.SetterLaws | rslogo/src/turtle.rs:52-79 | Setting a field to its own value changes nothing, the later of two settings wins, and SETX and SETY commute |
| Turtles.Turn | rslogo/src/turtle.rs:72-75 | Turning adds to the heading with overflow checking and changes nothing else |
| Turtles.Move | rslogo/src/turtle.rs:98-129 | A move fails on a colour outside the palette or an overflowing heading; otherwise only the position changes, to where the drawn line ends |
| Heaps.NewHeap | rslogo/src/heap.rs:19-26 | A fresh heap has no variables, no cached callables or assignables, and a consistent registry |
| Heaps.BuildCallable | rslogo/src/commands/factories.rs:21-44 | Every command and query name builds its own implementation, and a procedure name builds nothing |
| Heaps.GetCallable | rslogo/src/heap.rs:42-52 | A stored callable is returned as is; a missing built-in is created and cached; a missing procedure is an undefined-procedure error |
| Heaps.GetCallableKeepsConsistent | rslogo/src/heap.rs:42-52 | Looking up a callable keeps every built-in stored under its own name |
| Heaps.GetAssignable | rslogo/src/heap.rs:53-63 | Asking for MAKE or ADDASSIGN only adds it to the cache |
| Heaps.DeclareProcedure | rslogo/src/heap.rs:71-73 | A declaration stores the procedure under its name and changes nothing else |
| Heaps.DeclareKeepsConsistent | rslogo/src/heap.rs:71-73 | Storing a procedure keeps the registry consistent |
| Heaps.HandleConflicts | rslogo/src/commands/procedure.rs:34-44 | What stays holds only non-formals, and what is set aside holds only formals, each with its old value |
| Heaps.PushArguments | rslogo/src/commands/procedure.rs:50-54 | Binding the arguments keeps every name, adds only formals, and leaves non-formals alone |
| Heaps.HandleConflictsSplits | rslogo/src/commands/procedure.rs:34-44 | Setting aside the formals splits the variables into the non-formals that stay and the formals' old values that are kept |
| Heaps.PushArgumentsBinds | rslogo/src/commands/procedure.rs:50-54 | Formals are bound pairwise to the arguments, as far as the shorter list goes; the later binding wins; other names keep their values |
| Heaps.Restore | rslogo/src/commands/procedure.rs:45-49 | Restoring puts back every kept value and leaves other names as the body left them |
| Evaluator.ApplyBinary | rslogo/src/ast.rs:159-203 | AND/OR need Bools and only check the second operand when the first does not decide; EQ/NE follow equality; LT/GT reject Bools; calculations need numbers |
| Evaluator.QueryResult | rslogo/src/commands/queries.rs:11-36 | XCOR/YCOR give the position as a float, and HEADING/COLOR give the heading and colour as ints |
| Evaluator.CommandEffect | rslogo/src/commands/control.rs:26-116 | Moves draw, SETX/SETY set a coordinate, and SETPENCOLOR/SETHEADING/TURN need an int; a Bool moves nothing; no command changes the pen |
| Evaluator.Assign | rslogo/src/commands/variables.rs:9-28 | MAKE binds the name; ADDASSIGN needs the name bound and adds to it; either way exactly that name is added |
| Evaluator.EvalValue | rslogo/src/commands.rs:54-68 | A literal is itself; a variable is its value or an undefined-variable error; a procedure name in value position is an error |
| Evaluator.EvalBinary | rslogo/src/ast.rs:159-203 | A logic operation gives a Bool and a calculation gives a number |
| Evaluator.EvalArgs | rslogo/src/commands/procedure.rs:11-16 | Arguments give one value each, and no arguments give none |
| Evaluator.Call | rslogo/src/ast.rs:237-239 | Calling an undeclared procedure is an undefined-procedure error |
| Evaluator.RunCommand | rslogo/src/commands/control.rs:10-21 | PENUP/PENDOWN only set the pen, and a command without an argument does nothing |
| Evaluator.CallProcedure | rslogo/src/commands/procedure.rs:11-28 | A procedure call with no fuel left fails |
| Evaluator.RunBody | rslogo/src/commands/procedure.rs:21-26 | With no formals, running a body is running its statements on the caller's heap |
| Evaluator.ExecStatement | rslogo/src/ast.rs:76-80 | A declaration stores the procedure and succeeds |
| Evaluator.Loop | rslogo/src/ast.rs:60-72 | A WHILE with the literal test FALSE does nothing, a literal test that is not a Bool is a type error, and the literal test TRUE never finishes successfully |
| Evaluator.ExecBlock | rslogo/src/ast.rs:19-31 | The empty block leaves the heap unchanged |
| EvaluatorFacts.ExecBlockAppend | rslogo/src/ast.rs:19-31 | Running two blocks in sequence is running the first and then the second on its heap; an error in the first ends the run |
| FuelFacts.EvalValueFuel | rslogo/src/commands.rs:54-68 | Once an operand is evaluated without running out of fuel, one more unit does not change the result |
| FuelFacts.EvalBinaryFuel | rslogo/src/ast.rs:159-203 | The same for a binary expression |
| FuelFacts.EvalArgsFuel | rslogo/src/commands/procedure.rs:11-16 | The same for an argument list |
| FuelFacts.CallFuel | rslogo/src/ast.rs:237-239 | The same for a call |
| FuelFacts.RunCommandFuel | rslogo/src/commands/control.rs:26-116 | The same for a built-in command |
| FuelFacts.CallProcedureFuel | rslogo/src/commands/procedure.rs:11-28 | The same for a procedure call |
| FuelFacts.RunBodyFuel | rslogo/src/commands/procedure.rs:17-27 | The same for a procedure body in its frame |
| FuelFacts.ExecStatementFuel | rslogo/src/ast.rs:19-31 | The same for a statement |
| FuelFacts.LoopFuel | rslogo/src/ast.rs:61-72 | The same for a WHILE loop |
| FuelFacts.ExecBlockFuel | rslogo/src/ast.rs:19-31 | The same for a block |
| FuelFacts.MoreFuel | rslogo/src/program.rs:28-32 | A program that finishes on some fuel gives the same result on any larger fuel |
| RegistryFacts.EvalValueConsistent | rslogo/src/commands.rs:54-68 | Evaluating an operand keeps the registry consistent |
| RegistryFacts.EvalBinaryConsistent | rslogo/src/ast.rs:159-203 | Evaluating a binary expression keeps the registry consistent |
| RegistryFacts.EvalArgsConsistent | rslogo/src/commands/procedure.rs:11-16 | Evaluating arguments keeps the registry consistent |
| RegistryFacts.CallConsistent | rslogo/src/heap.rs:64-67 | A call keeps the registry consistent |
| RegistryFacts.RunCommandConsistent | rslogo/src/commands/control.rs:26-116 | A built-in command keeps the registry consistent |
| RegistryFacts.CallProcedureConsistent | rslogo/src/commands/procedure.rs:11-28 | A procedure call keeps the registry consistent |
| RegistryFacts.RunBodyConsistent | rslogo/src/commands/procedure.rs:17-27 | A procedure body keeps the registry consistent |
| RegistryFacts.ExecStatementConsistent | rslogo/src/ast.rs:19-31 | A statement keeps the registry consistent |
| RegistryFacts.LoopConsistent | rslogo/src/ast.rs:61-72 | A WHILE loop keeps the registry consistent |
| RegistryFacts.ExecBlockConsistent | rslogo/src/ast.rs:19-31 | A block keeps the registry consistent |
| RegistryFacts.ProgramKeepsRegistry | rslogo/src/program.rs:28-32 | A program run from a fresh heap leaves every built-in name mapped to its own implementation |
| EvaluatorFacts.ParsedOperandEval | rslogo/src/commands.rs:54-68 | A parsed operand never needs fuel, and evaluating it leaves the variables and the turtle alone |
| EvaluatorFacts.LiteralArgs | rslogo/src/commands/procedure.rs:11-16 | Literal arguments evaluate to their own values without touching the heap |
| EvaluatorFacts.EvalArgsValues | rslogo/src/commands/procedure.rs:13-20 | Parsed arguments are evaluated in order on the caller's heap: the call goes ahead exactly when each has a value, each value is the argument's own, and otherwise the error is the first failing argument's |
| EvaluatorFacts.OperandsBothEvaluated | rslogo/src/ast.rs:159-203 | AND/OR evaluate the second operand even when the first is false, and the first operand's error comes first |
| EvaluatorFacts.BodyStartBindings | rslogo/src/commands/procedure.rs:11-54 | At the start of a body, non-formals keep their values, each formal (the last of its name) holds its argument, and formals without an argument are unbound |
| EvaluatorFacts.AfterCallBindings | rslogo/src/commands/procedure.rs:34-49 | After a call, shadowed globals are back; every other name is as the body left it |
| EvaluatorFacts.ProcedureFrame | rslogo/src/commands/procedure.rs:11-28 | A successful call runs the body in the formals' frame; its turtle and procedures are the body's, shadowed globals are restored, and other names keep the body's values |
| EvaluatorFacts.ProcedureCallHasNoResult | rslogo/src/commands/procedure.rs:11-28 | A procedure call never returns a value |
| EvaluatorFacts.QueryIgnoresArguments | rslogo/src/commands/queries.rs:11-36 | A query ignores its arguments and returns the turtle's current state without changing anything |
| EvaluatorFacts.CommandUsesFirstArgument | rslogo/src/commands/control.rs:26-116 | Commands other than PENUP/PENDOWN evaluate only their first argument, then apply it or pass its error on |
| EvaluatorFacts.CommandWithoutArgument | rslogo/src/commands/control.rs:26-116 | Such a command with no argument does nothing |
| EvaluatorFacts.PenCommands | rslogo/src/commands/control.rs:10-21 | PENUP and PENDOWN set only the pen, whatever their arguments |
| EvaluatorFacts.BoolArgumentIgnored | rslogo/src/commands/control.rs:26-59 | A Bool passed to a move, SETX or SETY changes nothing |
| EvaluatorFacts.CommandThenQuery | rslogo/src/tests.rs:864-880 | A command followed by a query sees exactly the turtle the command produced |
| EvaluatorFacts.ReadBack | rslogo/src/commands/control.rs:64-116 | After SETX/SETY the matching query reads the value back as a float; after SETHEADING/SETPENCOLOR it reads the int back |
| EvaluatorFacts.SettersAndQueries | rslogo/src/tests.rs:864-880 | Each setter is read back by its query: XCOR after SETX, YCOR after SETY, HEADING after SETHEADING, COLOR after SETPENCOLOR |
| EvaluatorFacts.TurnThenHeading | rslogo/src/commands/control.rs:78-86 | After TURN the heading is the old heading plus the turn, or the turn overflows |
| EvaluatorFacts.IntegerCommandsReject | rslogo/src/commands/control.rs:64-99 | SETPENCOLOR, SETHEADING and TURN reject a value that is not a whole number |
| EvaluatorFacts.GetCallableTwice | rslogo/src/heap.rs:42-52 | A second lookup finds the callable the first cached and changes nothing |
| EvaluatorFacts.MakeBindsOneName | rslogo/src/commands/variables.rs:9-14 | MAKE binds exactly its name to the operand's value and leaves the turtle alone |
| EvaluatorFacts.EvalValueIgnoresAssignables | rslogo/src/ast.rs:40-43 | Caching an assignable does not change what an operand evaluates to |
| EvaluatorFacts.SameExceptCaches | rslogo/src/heap.rs:42-63 | Two heaps with the same variables and turtle give every operand the same value, or the same error |
| EvaluatorFacts.AddAssignDoubles | rslogo/src/commands/variables.rs:19-28 | ADDASSIGN of a variable to itself doubles it, or overflows |
| EvaluatorFacts.AddAssignErrors | rslogo/src/commands/variables.rs:19-28 | ADDASSIGN to an unbound name is an undefined-variable error, and with a Bool on either side a type error |
| EvaluatorFacts.IfSemantics | rslogo/src/ast.rs:47-57 | IF runs its body on true, does nothing on false, and rejects a test that is not a Bool |
| EvaluatorFacts.WhileUnfolds | rslogo/src/ast.rs:61-72 | WHILE stops on false, rejects a non-Bool test, and on true runs the body and then tests again |
| EvaluatorFacts.WhileTrueNeverSucceeds | rslogo/src/ast.rs:61-72 | `WHILE "TRUE` never finishes successfully |
| Transpiler.Indent | rslogo/src/transpiler.rs:19-29 | Indentation is four spaces per level |
| Transpiler.RenderValue | rslogo/src/transpiler.rs:167-174 | An operand can be written exactly when it holds no procedure identifier; a binary one is written in parentheses |
| Transpiler.RenderBinary | rslogo/src/transpiler.rs:74-80 | A binary expression is written in parentheses when both operands can be written |
| Transpiler.RenderArgs | rslogo/src/transpiler.rs:33-42 | Each argument is written to one piece, exactly when all of them can be |
| Transpiler.RenderCall | rslogo/src/transpiler.rs:33-42 | A call is written indented and ends with a newline |
| Transpiler.RenderStatement | rslogo/src/transpiler.rs:19-118 | A statement ends with a newline; definitions start with `def `; all other statements are indented to their depth |
| Transpiler.RenderBlock | rslogo/src/transpiler.rs:19-29 | A block can be written exactly when each statement can, and the empty block is written as nothing |
| Transpiler.Transpile | rslogo/src/program.rs:43-49 | A program translates exactly when every statement can be written; otherwise the error is the unrenderable one |
| TranspilerFacts.RenderBlockAppend | rslogo/src/transpiler.rs:19-29 | The text of two blocks in sequence is the first block's text followed by the second's |
| TranspilerFacts.RenderSingleton | rslogo/src/transpiler.rs:19-29 | A one-statement block is written as that statement |
| TranspilerFacts.IfWhileShareLayout | rslogo/src/transpiler.rs:45-70 | IF and WHILE are written with the same indentation, test and body; only the keyword differs |
| TranspilerFacts.ColorNamedAsPendown | rslogo/src/transpiler.rs:129-153 | The only command and query sharing a Python name are PENDOWN and COLOR |
| TranspilerFacts.ColorCallRendersAsPendown | rslogo/src/transpiler.rs:146-163 | A COLOR query is written exactly like a PENDOWN command with the same arguments |
| TranspilerFacts.NestedCallKeepsNewline | rslogo/src/transpiler.rs:33-42 | `FORWARD XCOR` is written `forward(xcor()\n)\n` |
| TranspilerFacts.ProcedureIdentifierAborts | rslogo/src/transpiler.rs:167-174 | A procedure identifier anywhere in value position makes the whole translation fail |
| Scripts.VariablesScript | rslogo/src/tests.rs:853-861 | MAKE 10, ADDASSIGN 10, FORWARD leaves the variable at 20 |
| Scripts.CountUp | rslogo/src/ast.rs:61-72 | A counting loop from `i = k` reaches `i = 10` when it may run `10 - k` iterations, and runs out of fuel otherwise |
| Scripts.CounterScript | rslogo/src/tests.rs:898-911 | Counting from 0 below 10 ends with `i = 10` on ten units of fuel, and no fewer will do |
| Scripts.ProcedureScript | rslogo/src/tests.rs:949-970 | A formal named like a global shadows it during the call, and the global's 90 is back afterwards |

## Left out

- `main.rs` and the file, image and SVG/PNG I/O of `program.rs`: the model
  starts from the program text and stops at the turtle state and the Python
  text.
- `f32` arithmetic, comparison, parsing (`str::parse::<f32>`) and
  printing: left abstract as `Floats.FloatOps`, because IEEE rounding is not
  part of the interpreter's logic. Only the widening of ints and the rule
  "ints stay ints" are modelled.
- Drawing on the `unsvg` image: `Env.line` stands for it. It returns the
  line's end point, or nothing when the drawing fails. `Env.paletteSize`
  stands for the length of `unsvg::COLORS`.
- `Turtle::new_with_img` and `attach_img`: the image handle is not modelled.
- The panic messages: each panic becomes an `Err` whose kind names the
  failure. The message text itself is left out.
- The `Rc<dyn Callable>` and `Rc<dyn Assignable>` objects: a callable is a
  datatype value. An assignable is only recorded as cached, because MAKE and
  ADDASSIGN have no state.
- The fuel bound: a program the original would run forever ends here in
  `Err(OutOfFuel)`. The `FuelFacts` lemmas show that a run that finishes on
  some fuel gives the same result on any larger fuel. That a terminating
  run finishes on some finite fuel is not stated.
- Scripts.ProcedureScript: a reduced `test_procedure`. It omits the BOX
  procedure and the turtle position, and states only the variables after the
  run.
- Scripts.CounterScript: a reduced `test_if_while`. It keeps the counting
  WHILE and leaves out the FORWARD, the IF and the turn in its body.
- Scripts.VariablesScript: assumes that every line can be drawn
  (`Scripts.Draws`), and states only the variables.
- Turtles.Move: the end point of a line is whatever `Env.line` returns. The
  trigonometry of `move_` is not restated.
- The other parse tests of `tests.rs` are not restated one by one. The
  round-trip lemmas of `StatementFacts` and `Expressions` cover the grammar
  they exercise.
