# quati parser — a Dafny model

This project models `src/parser.c` of the quati interpreter. It is the
fail-fast LL(1) recursive-descent parser that turns the scanner's tokens into
the abstract syntax tree the interpreter runs.

The source keeps one token of lookahead in the global `currentToken`.
`match` checks that token's kind and advances. Each grammar rule is a C
function:

- `factor`, `term`, `expArithmetic` and `stmtExp` build left-leaning binary
  `OpK` trees, one precedence layer each.
- `stmtPrint` builds the only statement node that is kept, a `WriteK`.
- The other statement rules (`stmtLoop`, `stmtIf`, `stmtFunc`, `stmtVar`,
  `stmtAssign`) only check syntax and return nothing.
- `stmtSequence` links the nodes `stmt` returns through their `next` fields.
- `getProgramAST` parses one sequence and then expects the end of input.

The model has two layers.

- **Module Grammar** (`grammar.dfy`) has one pure function per rule, over a
  token sequence and a cursor.
  - Each function returns `Ok(node, next)` or `Fail(SyntaxError(at))`.
  - Each `while` loop of the source is a tail-recursive `...Loop` function.
  - A `Fail` stands for the source's `syntaxeError`, which is taken to abort
    the run.
  - The write through the NULL `auxNode` in `stmtSequence` is a third
    outcome, `Fail(NullDeref(at))`.
- **Class Parse.Parser** (`parser.dfy`) is the imperative parser.
  - It holds the tokens and a cursor field `pos`; the lookahead is the token
    at `pos`.
  - It has one method per C function, with the source's `while` loops,
    branches and early exits.
  - Every method is proved to return what its Grammar function returns from
    the cursor it started at, and to leave `pos` where that result says.

The other modules state what the rules promise:

- **Tokens** and **Ast** (`tokens.dfy`, `ast.dfy`) hold the token kinds and
  the tree.
  - `Expr` has `NullExpr` for the source's NULL child.
  - The statement list is a sequence in `next` order.
  - Shape predicates describe what each expression layer can return.
- **Unparse** (`unparse.dfy`) writes a tree back to tokens. It is the inverse
  against which the parse is checked.
- **ExprFacts** (`expr_facts.dfy`) covers expressions:
  - each case of `factor`;
  - parse after unparse gives every layered expression tree back, so `+ - * /`
    associate to the left and `*`, `/` bind tighter than `+`, `-`;
  - parentheses lose their contents;
  - relational operators do not chain.
- **StmtFacts** (`stmt_facts.dfy`) covers statement sequences:
  - a program made of print statements parses back to exactly its list;
  - only print statements are linked;
  - a sequence whose first statement is not a print stays empty, and a later
    print then crashes on the NULL head.
- **ClauseFacts** (`clause_facts.dfy`) covers the rules that build no node:
  - trailing commas in parameter and argument lists are accepted;
  - an expression argument is rejected;
  - a bare `x;` is accepted;
  - a bare identifier is accepted as a loop increment;
  - loop and function bodies admit only some statements;
  - a declaration needs its initialiser;
  - the NULL-head crash also happens inside an `if` block.
- **BodyFacts** (`body_facts.dfy`) covers loops and function definitions:
  - `var id = e ;`, the `id = e` increment and `if ( e )` for any
    expression `e`;
  - each statement kind a loop or function body reads, and any run of print
    statements;
  - `return e ;`;
  - the definitions `fun f ( ) { return 1 ; }` and
    `fun f ( a , b ) { print ( a ) ; }`.
- **MixedFacts** (`mixed_facts.dfy`) covers sequences that mix print
  statements with statements that yield no node:
  - a sequence led by a print yields exactly its print nodes, in source
    order, and drops the rest;
  - a sequence led by any number of statements without a node crashes at the
    first print after them.
- **TextFacts** (`text_facts.dfy`) gives the round trips for the rules that
  build no node. The written-out text of each of the following is read back
  whole, for every expression tree and every print-only block:
  - a declaration, a loop condition, a loop increment and an `if` head;
  - loop, function and `if` blocks;
  - whole `if ... else` and `for` statements.

Quirks of the code that the model keeps as written:

- **Parenthesised expressions.** `factor` parses the expression inside
  `( e )` and then returns NULL (`src/parser.c:407-417`). So `(1 + 2) * 3`
  has root `*` with a NULL left child
  (`ExprFacts.ParenthesisedSumIsDropped`).
- **A statement before the first print.** When the first statement of a
  sequence is not a print, the list head stays NULL. The next print is then
  linked through that NULL pointer (`src/parser.c:67-76`). The model reports
  `NullDeref` there, so `var x = 1; print(x);` crashes
  (`StmtFacts.NonPrintThenPrintCrashes`,
  `StmtFacts.DeclarationThenPrintCrashes`). The same holds after any number
  of such statements, so `x ; y ; print ( 1 ) ;` crashes too
  (`MixedFacts.NonPrintRunThenPrintCrashes`,
  `MixedFacts.TwoStatementsThenPrintCrash`).
- **Trailing commas.** The parameter and argument loops take a comma after
  every item not followed by `)`, and then stop at the `)`
  (`src/parser.c:118-124`, `src/parser.c:281-287`). So a comma just before
  the `)` is accepted (`ClauseFacts.ParamListReads`,
  `ClauseFacts.ArgumentsReads`).
- **Chained comparisons.** `stmtExp` builds at most one relational node
  (`src/parser.c:324-338`). So `print ( a < b < c ) ;` is a syntax error at
  the second `<` (`StmtFacts.ChainedComparisonExample`).

## Model

| member | source | states |
|---|---|---|
| Grammar.Match | src/parser.c:19-29 | succeeds exactly when the lookahead has the expected kind, then moves the cursor by one token; otherwise a syntax error at the cursor |
| Grammar.Factor | src/parser.c:385-418 | a successful factor consumes at least one token and yields a leaf or NULL, never an operator node |
| ExprFacts.FactorLeaves | src/parser.c:389-415 | an int token gives a `ConstK` leaf with its value; an identifier gives an `IdK` leaf with its ordinal; each takes one token; any kind other than int, identifier or `(` is a syntax error at the cursor |
| ExprFacts.ParenthesesDiscarded | src/parser.c:407-417 | `( expression )` as a factor always yields NULL, and when the inner expression and the `)` are read, the factor ends after the `)` |
| ExprFacts.ParenthesisedFactor | src/parser.c:407-417 | the text `( e )` of any tree `e` that `stmtExp` builds, relational ones included, is one factor, NULL, ending after the `)` |
| ExprFacts.ParenthesisedOperandIsDropped | src/parser.c:363-418 | `( e ) * c` is a `*` node whose left child is NULL and whose right child is `c` |
| ExprFacts.NullTimesConstant | src/parser.c:322-383 | a NULL factor followed by `* c` and no further operator is the expression `OpK(*, NULL, c)` |
| ExprFacts.NullProduct | src/parser.c:363-383 | a NULL factor followed by `* c` and no further `*` or `/` is the term `OpK(*, NULL, c)` |
| ExprFacts.ParenthesisedSumIsDropped | src/parser.c:363-418 | `(1 + 2) * 3` parses to a `*` root with a NULL left child, unlike `1 + 2 * 3` |
| Grammar.TermLoop | src/parser.c:367-380 | the loop of `term` keeps a multiplicative left spine over factors and stops only when no `*` or `/` follows |
| Grammar.Term | src/parser.c:363-383 | a term consumes at least one token, yields a left spine of `*`/`/` nodes over factors, and never stops before a `*` or `/` |
| ExprFacts.TermStart | src/parser.c:365 | `term` continues its loop from the factor it read first |
| ExprFacts.TermStep | src/parser.c:367-379 | one loop turn makes a new node with the operator, the tree so far as left child and the next factor as right child |
| ExprFacts.TermLoopStops | src/parser.c:367 | the loop leaves the tree as it is when no `*` or `/` follows |
| ExprFacts.TermEmit | src/parser.c:363-383 | the text of any term tree reads back, as `term`, to that tree and ends right after it |
| ExprFacts.PrimaryEmit | src/parser.c:363-418 | the text of a leaf or NULL reads back as a term to itself |
| ExprFacts.TermOpEmit | src/parser.c:367-379 | if a term tree's left spine reads back, the whole `*`/`/` node reads back |
| ExprFacts.ProductEmit | src/parser.c:367-379 | an operator and a factor text after a term that reads back extend it to the node they make |
| ExprFacts.FactorEmit | src/parser.c:385-418 | the text of a leaf or of NULL reads back, as `factor`, to itself |
| ExprFacts.NullEmit | src/parser.c:407-412 | `( 0 )` is a factor that yields NULL and takes three tokens |
| Grammar.ArithLoop | src/parser.c:345-358 | the loop of `expArithmetic` keeps an additive left spine over terms and stops only when neither `+`/`-` nor `*`/`/` follows |
| Grammar.Arith | src/parser.c:341-361 | an arithmetic expression consumes at least one token, yields a left spine of `+`/`-` nodes over terms, and never stops before an arithmetic operator |
| ExprFacts.ArithStart | src/parser.c:343 | `expArithmetic` continues its loop from the term it read first |
| ExprFacts.ArithStep | src/parser.c:345-357 | one loop turn makes a new node with the operator, the tree so far as left child and the next term as right child |
| ExprFacts.ArithLoopStops | src/parser.c:345 | the loop leaves the tree as it is when no `+` or `-` follows |
| ExprFacts.ArithEmit | src/parser.c:341-361 | the text of any arithmetic tree reads back, as `expArithmetic`, to that tree |
| ExprFacts.ArithOfTerm | src/parser.c:341-361 | the text of a term tree reads back as an arithmetic expression to itself |
| ExprFacts.ArithOpEmit | src/parser.c:345-357 | if an arithmetic tree's left spine reads back, the whole `+`/`-` node reads back |
| ExprFacts.SumEmit | src/parser.c:345-357 | an operator and a term text after an arithmetic expression that reads back extend it to the node they make |
| ExprFacts.ArithReads | src/parser.c:341-361 | an arithmetic tree's text followed by a non-operator is read as exactly that tree, ending after its text |
| Grammar.StmtExp | src/parser.c:322-339 | an expression is one arithmetic tree or one relational node over two; it never stops before an arithmetic operator, and if a relational token follows, the result is already a relational node (no chaining) |
| Parse.Parser.IsRelationalOperator | src/parser.c:317-320 | true exactly when the lookahead is one of the six kinds `==`, `!=`, `<`, `<=`, `>`, `>=` |
| ExprFacts.StmtExpPlain | src/parser.c:324-338 | an arithmetic expression not followed by a relational operator is the whole result |
| ExprFacts.RelationalStep | src/parser.c:326-336 | a relational operator between two arithmetic expressions gives one node with that operator and the two as children |
| ExprFacts.StmtExpEmit | src/parser.c:322-339 | the text of any expression tree `stmtExp` can build reads back to that tree |
| ExprFacts.PlainEmit | src/parser.c:322-339 | the text of an arithmetic tree not followed by a relational operator reads back through `stmtExp` |
| ExprFacts.ComparisonEmit | src/parser.c:322-339 | the text of a relational node reads back through `stmtExp` |
| ExprFacts.ComparisonParts | src/parser.c:326-336 | left text, operator and right text read back to the relational node they form |
| ExprFacts.SubtractionAssociatesLeft | src/parser.c:341-361 | `1 - 2 - 3` parses as `(1 - 2) - 3` |
| ExprFacts.ProductBindsTighter | src/parser.c:341-383 | `1 + 2 * 3` parses as `1 + (2 * 3)` |
| ExprFacts.RelationalDoesNotChain | src/parser.c:322-339 | in `a < b < c` the expression is `a < b` and ends before the second `<` |
| Grammar.PrintArg | src/parser.c:176-186 | a string token gives a string leaf holding the literal's text and taking one token; any other token gives exactly what `stmtExp` gives |
| Grammar.StmtPrint | src/parser.c:169-192 | a print statement starts with `print`, consumes tokens, and its `WriteK` child is a string leaf or an expression tree |
| StmtFacts.PrintArgEmit | src/parser.c:176-186 | the text of any print argument followed by `)` reads back to that argument |
| StmtFacts.PrintStep | src/parser.c:173-191 | `print ( arg ) ;` yields a `WriteK` node over the argument and ends after the `;` |
| StmtFacts.PrintNeedsSemicolon | src/parser.c:188-189 | a print statement missing its `;` is a syntax error at the token after the `)` |
| StmtFacts.ChainedComparisonFails | src/parser.c:169-192 | when the expression of a print statement stops before a relational operator, the statement is a syntax error at that operator |
| StmtFacts.ChainedComparisonExample | src/parser.c:322-339 | `print ( a < b < c ) ;` is a syntax error at the second `<` |
| StmtFacts.PrintEmit | src/parser.c:169-192 | the text of any print statement reads back to that statement node |
| Grammar.StmtVar | src/parser.c:308-315 | a declaration starts with `var` and consumes tokens |
| BodyFacts.DeclarationStatement | src/parser.c:308-315 | `var id = e ;` with any expression `e` is a declaration ending after the `;` |
| BodyFacts.StmtOfDeclaration | src/parser.c:100-112 | `stmt` hands a `var` to `stmtVar` and returns no node |
| ClauseFacts.DeclarationNeedsInitialiser | src/parser.c:310-312 | `var x` not followed by `=` is a syntax error at that token |
| Grammar.ArgumentsList | src/parser.c:279-288 | the argument loop never moves the cursor back and stops only before a token that is not an identifier, int or string |
| ClauseFacts.ArgumentsReads | src/parser.c:279-288 | identifiers and literals separated by commas, with or without a trailing comma, are read up to the `)` |
| ClauseFacts.ArgumentIsNoExpression | src/parser.c:283-286 | an argument followed by anything but `,` or `)` is a syntax error at that token |
| Grammar.AssignTail | src/parser.c:294-303 | the part after the identifier never moves the cursor back, and consumes nothing exactly when neither `=` nor `(` follows |
| ClauseFacts.BareTail | src/parser.c:294-303 | before a token other than `=` and `(` the part after the identifier reads nothing |
| Grammar.StmtAssign | src/parser.c:290-306 | an identifier-led statement starts with an identifier and consumes tokens |
| ClauseFacts.StmtOfAssign | src/parser.c:104-106 | `stmt` hands an identifier-led statement to `stmtAssign` and returns no node |
| ClauseFacts.CallStatement | src/parser.c:299-305 | `f ( arguments ) ;` is accepted with or without a trailing comma, and ends after the `;` |
| ClauseFacts.CallRejectsExpression | src/parser.c:283-305 | a call whose argument is an expression such as `a + 1` is a syntax error at the token after the first operand |
| ClauseFacts.BareIdentifierStatement | src/parser.c:290-306 | `x ;` is a statement of two tokens that yields no node |
| ClauseFacts.AssignNeedsTail | src/parser.c:294-305 | an identifier followed by anything but `=`, `(` or `;` is a syntax error at the second token |
| ClauseFacts.AssignmentStatement | src/parser.c:294-305 | `x = expression ;` is accepted and ends after the `;` |
| Grammar.ParamList | src/parser.c:116-125 | the parameter loop never moves the cursor back and stops only before a non-identifier |
| ClauseFacts.ParamListReads | src/parser.c:116-125 | identifiers separated by commas, with or without a trailing comma, are read up to the `)` |
| ClauseFacts.ParamMissingComma | src/parser.c:120-123 | a parameter followed by anything but `,` or `)` is a syntax error at that token |
| Grammar.LoopIncrement | src/parser.c:127-139 | a loop increment starts with an identifier and consumes tokens |
| BodyFacts.LoopIncrementAssign | src/parser.c:134-138 | `id = e` with any expression `e` is an increment ending where `e` ends |
| ClauseFacts.LoopIncrementStep | src/parser.c:129-132 | `i ++` and `i --` are increments of two tokens |
| ClauseFacts.LoopIncrementBareId | src/parser.c:127-139 | an identifier followed by anything but `++`, `--` or `=` is an increment of one token |
| Grammar.LoopCondition | src/parser.c:199-200 | a loop condition reads an expression and ends just after a `;` |
| BodyFacts.LoopConditionOf | src/parser.c:199-200 | an expression followed by `;` is a loop condition ending after the `;` |
| Grammar.LoopControl | src/parser.c:198-201 | the declaration, condition and increment consume tokens |
| Grammar.LoopHeader | src/parser.c:196-202 | a loop head starts with `for` and consumes tokens |
| BodyFacts.LoopHeaderOf | src/parser.c:196-202 | `for (`, a declaration, a condition, an increment and `)` make a loop head ending after the `)` |
| Grammar.LoopBlock | src/parser.c:204-206 | a loop block starts with `{` and consumes tokens |
| BodyFacts.LoopBlockOf | src/parser.c:204-206 | `{`, a body and `}` make a loop block ending after the `}` |
| BodyFacts.LoopOf | src/parser.c:194-207 | a loop head followed by a loop block is a loop statement ending with the block |
| Grammar.StmtLoop | src/parser.c:194-207 | a loop starts with `for` and consumes tokens |
| ClauseFacts.HeadWithBareIncrement | src/parser.c:196-202 | `for ( declaration condition ; i )` is a loop head ending after the `)` |
| ClauseFacts.EmptyLoopBlock | src/parser.c:204-206 | `{ }` is a loop block of two tokens |
| ClauseFacts.LoopWithBareIncrement | src/parser.c:194-207 | `for ( declaration condition ; i ) { }` is a loop ending after the `}` |
| ClauseFacts.StmtOfLoop | src/parser.c:88-90 | `stmt` hands a `for` to `stmtLoop` and returns no node |
| ClauseFacts.LoopBodyAdmitsNoLoop | src/parser.c:141-167 | a `for` or `fun` after any run of body statements ends the loop body, and the loop block is a syntax error at that token |
| Grammar.BodyLoop | src/parser.c:141-167 | the body loop never moves the cursor back and stops only before a token that starts no print, var, identifier-led or if statement |
| BodyFacts.BodyStops | src/parser.c:143 | before a token that starts no body statement the body reads nothing |
| BodyFacts.BodyPrintStep | src/parser.c:147-149 | a print statement is read as one turn of the body loop |
| BodyFacts.BodyIfStep | src/parser.c:151-153 | an if statement is read as one turn of the body loop |
| BodyFacts.BodyVarStep | src/parser.c:155-157 | a declaration is read as one turn of the body loop |
| BodyFacts.BodyAssignStep | src/parser.c:159-161 | an assignment, call or bare identifier statement is read as one turn of the body loop |
| BodyFacts.BodyReadsPrints | src/parser.c:141-167 | the body reads a run of print statements in order and stops where no body statement starts (induction) |
| BodyFacts.BodyOfPrinted | src/parser.c:141-167 | the text of print statements one after the other is read whole by the body |
| BodyFacts.BodyEmit | src/parser.c:141-167 | the text of any print-only program, followed by a token that starts no body statement, is read whole by the body |
| Grammar.FuncReturn | src/parser.c:255-264 | the optional `return` never moves the cursor back |
| BodyFacts.ReturnExpression | src/parser.c:255-264 | `return e ;` with any expression `e` is a return ending after the `;` |
| BodyFacts.NoReturnHere | src/parser.c:255 | without `return` the end of the body reads nothing |
| ClauseFacts.ReturnString | src/parser.c:255-264 | `return "text" ;` is a return of three tokens |
| Grammar.FuncBody | src/parser.c:228-265 | a function body never moves the cursor back |
| ClauseFacts.EmptyFunctionBody | src/parser.c:228-265 | a function body before `}` is empty |
| ClauseFacts.NoReturn | src/parser.c:228-265 | a function body before a `for` or `fun` is empty |
| Grammar.FuncHeader | src/parser.c:269-273 | a function head starts with `fun` and consumes tokens |
| Grammar.FuncBlock | src/parser.c:274-276 | a function block starts with `{` and consumes tokens |
| BodyFacts.FuncBlockOf | src/parser.c:274-276 | `{`, body statements, the optional return and `}` make a function block ending after the `}` |
| Grammar.StmtFunc | src/parser.c:267-277 | a function definition starts with `fun` and consumes tokens |
| ClauseFacts.FunctionHead | src/parser.c:269-273 | `fun f ( parameters )` is a function head with or without a trailing comma, ending after the `)` |
| ClauseFacts.FunctionHeadOf | src/parser.c:269-273 | `fun f (` then a parameter list then `)` is a function head |
| ClauseFacts.EmptyFunctionBlock | src/parser.c:274-276 | `{ }` is a function block of two tokens |
| ClauseFacts.FunctionOf | src/parser.c:267-277 | a head and a block make a function definition |
| ClauseFacts.StmtOfFunction | src/parser.c:96-98 | `stmt` hands a `fun` to `stmtFunc` and returns no node |
| ClauseFacts.FunctionWithTrailingComma | src/parser.c:116-277 | `fun f ( a , b , ) { }` is a statement that yields no node |
| BodyFacts.FunctionReturningOne | src/parser.c:228-277 | `fun f ( ) { return 1 ; }`, with no parameters, is one function definition of nine tokens |
| BodyFacts.FunctionOfTwoParameters | src/parser.c:116-277 | `fun f ( a , b ) { print ( a ) ; }` is one function definition of fourteen tokens |
| ClauseFacts.FunctionBodyAdmitsNoLoop | src/parser.c:228-265 | a `for` or `fun` after any run of body statements ends the function body with no return, and the function block is a syntax error at that token |
| Grammar.IfHeader | src/parser.c:211-214 | an if head starts with `if` and consumes tokens |
| BodyFacts.IfHeaderOf | src/parser.c:211-214 | `if ( e )` with any expression `e` is an if head ending after the `)` |
| Grammar.Block | src/parser.c:215-217 | a block starts with `{` and consumes tokens |
| Grammar.StmtIf | src/parser.c:209-226 | an if statement starts with `if` and consumes tokens |
| ClauseFacts.IfWithoutElse | src/parser.c:219 | without an `else` the if statement ends after its block |
| ClauseFacts.IfElseNeedsBlock | src/parser.c:219-222 | an `else` not followed by `{` is a syntax error at that token |
| ClauseFacts.BlockNeedsBrace | src/parser.c:215 | a block that does not open with `{` is a syntax error at the cursor |
| ClauseFacts.BlockFails | src/parser.c:215-217 | a block whose statement sequence fails fails the same way |
| ClauseFacts.IfFailsInBlock | src/parser.c:215-217 | an if statement whose block fails fails the same way |
| ClauseFacts.IfSequenceFails | src/parser.c:209-217 | a failure of the statement sequence inside an `if` block, such as the NULL-head crash of a non-print statement followed by a print, is the failure of the whole `if` |
| ClauseFacts.BlockOf | src/parser.c:215-217 | `{`, a statement sequence and `}` make a block ending after the `}` |
| ClauseFacts.BlockOfPrint | src/parser.c:215-217 | `{`, one written-out print statement and `}` make a block ending after the `}` |
| ClauseFacts.StmtOfIf | src/parser.c:92-94 | `stmt` hands an `if` to `stmtIf` and returns no node |
| ClauseFacts.IfWithElse | src/parser.c:219-225 | after the first block, `else` and a second block extend the if statement to the end of that block |
| ClauseFacts.IfElseOfPrints | src/parser.c:209-226 | `if ( x > 0 ) { print ( x ) ; } else { print ( 0 ) ; }` is one if statement of 21 tokens |
| Grammar.Stmt | src/parser.c:83-113 | only a print statement yields a node; a statement consumes tokens exactly when its first token starts one; any other token yields no node and consumes nothing |
| StmtFacts.StmtOfPrint | src/parser.c:87 | `stmt` returns the print statement's node |
| Grammar.SeqLoop | src/parser.c:70-78 | the sequence loop never moves the cursor back and stops only before a token that starts no statement |
| Grammar.Seq | src/parser.c:65-81 | a statement sequence never moves the cursor back and stops only before a token that starts no statement |
| StmtFacts.SeqLoopPrint | src/parser.c:72-77 | with a non-empty list, a print statement is appended at its end |
| StmtFacts.SeqPrint | src/parser.c:67-68 | a sequence opening with a print statement starts its list with that node |
| StmtFacts.SeqLoopStops | src/parser.c:70 | the loop returns the list unchanged before a token that starts no statement |
| StmtFacts.SeqStops | src/parser.c:65-81 | a sequence at a token that starts no statement is the empty list and consumes nothing |
| StmtFacts.SeqLoopKeepsChain | src/parser.c:70-78 | the loop only appends, so the list built so far is a prefix of its result; a list that starts empty stays empty |
| StmtFacts.NonPrintHeadGivesEmptyList | src/parser.c:65-81 | a sequence whose first statement is not a print yields the empty list (NULL head) whenever it succeeds |
| StmtFacts.PrintHeadLeadsList | src/parser.c:65-81 | a sequence opening with a print statement starts with that statement's node |
| StmtFacts.NonPrintThenPrintCrashes | src/parser.c:67-76 | a statement that yields no node followed by a print statement makes the sequence write through the NULL head |
| StmtFacts.DeclarationThenPrintCrashes | src/parser.c:65-81 | `var x = 1 ; print ( x ) ;` makes the program write through the NULL head at the print statement |
| StmtFacts.PrintedEmit | src/parser.c:169-192 | the text of a print-only program is, statement by statement, a run of print texts |
| StmtFacts.PrintedPrints | src/parser.c:169-192 | such a run parses, statement by statement, to the program's own nodes |
| StmtFacts.PrintsStep | src/parser.c:169-192 | a print statement followed by a run of print statements is a run |
| StmtFacts.PrintedSplit | src/parser.c:169-192 | the first statement of such a run parses to its node and the rest is a run |
| StmtFacts.SeqLoopEmit | src/parser.c:70-78 | the loop reads a run of print statements and appends all their nodes in source order |
| StmtFacts.SeqLoopEmitStep | src/parser.c:72-77 | one print statement, then the rest of the run, append the whole run |
| StmtFacts.SeqEmit | src/parser.c:65-81 | a sequence of print statements yields exactly their nodes, in source order |
| StmtFacts.SeqEmitStep | src/parser.c:67-78 | a first print statement and the rest of the run give the whole list |
| Grammar.Program | src/parser.c:55-63 | a program succeeds only with the end-of-input token read last |
| StmtFacts.ProgramOf | src/parser.c:59-62 | a sequence followed by the end of input is the whole program, with that list |
| StmtFacts.ProgramEmit | src/parser.c:55-63 | any print-only program written out and followed by the end of input parses back to exactly its list of nodes |
| StmtFacts.EmptyProgram | src/parser.c:55-63 | an input of only the end-of-input token is the empty program (NULL) |
| StmtFacts.StrayFirstToken | src/parser.c:55-63 | a first token that starts no statement and is not the end of input is a syntax error at position 0 |
| Parse.Parser.constructor | src/parser.c:7 | a new parser holds the tokens and its cursor is at the first token |
| Parse.Parser.Match | src/parser.c:19-29 | returns what Grammar.Match returns and moves `pos` to where it ends |
| Parse.Parser.GetProgramAST | src/parser.c:55-63 | returns what Grammar.Program returns for the whole input |
| Parse.Parser.StmtSequence | src/parser.c:65-81 | returns what Grammar.Seq returns; the loop keeps the linked list `chain` and stops at the NULL-head write |
| Parse.Parser.Stmt | src/parser.c:83-113 | returns what Grammar.Stmt returns |
| Parse.Parser.ParamList | src/parser.c:116-125 | returns what Grammar.ParamList returns |
| Parse.Parser.LoopIncrement | src/parser.c:127-139 | returns what Grammar.LoopIncrement returns |
| Parse.Parser.LoopBody | src/parser.c:141-167 | returns what Grammar.BodyLoop returns |
| Parse.Parser.StmtPrint | src/parser.c:169-192 | returns what Grammar.StmtPrint returns |
| Parse.Parser.StmtLoop | src/parser.c:194-207 | returns what Grammar.StmtLoop returns |
| Parse.Parser.StmtIf | src/parser.c:209-226 | returns what Grammar.StmtIf returns |
| Parse.Parser.FuncBody | src/parser.c:228-265 | returns what Grammar.FuncBody returns |
| Parse.Parser.StmtFunc | src/parser.c:267-277 | returns what Grammar.StmtFunc returns |
| Parse.Parser.ArgumentsList | src/parser.c:279-288 | returns what Grammar.ArgumentsList returns |
| Parse.Parser.StmtAssign | src/parser.c:290-306 | returns what Grammar.StmtAssign returns |
| Parse.Parser.StmtVar | src/parser.c:308-315 | returns what Grammar.StmtVar returns |
| Parse.Parser.StmtExp | src/parser.c:322-339 | returns what Grammar.StmtExp returns |
| Parse.Parser.ExpArithmetic | src/parser.c:341-361 | returns what Grammar.Arith returns; the loop keeps `leftTree` an additive spine |
| Parse.Parser.Term | src/parser.c:363-383 | returns what Grammar.Term returns; the loop keeps `leftTree` a multiplicative spine |
| Parse.Parser.Factor | src/parser.c:385-418 | returns what Grammar.Factor returns |
| MixedFacts.SeqLoopSkip | src/parser.c:70-78 | a statement that yields no node is read and links nothing: the loop goes on from its end with the same list |
| MixedFacts.SeqLoopLink | src/parser.c:72-77 | once the head exists, a statement that yields a node appends it at the end of the list |
| MixedFacts.SeqLoopReads | src/parser.c:70-78 | once the head exists, the loop over any run of statements appends exactly the nodes among them, in source order, and stops where the run ends |
| MixedFacts.SeqReads | src/parser.c:65-81 | a sequence led by a print statement yields exactly the print nodes among its statements, in source order |
| MixedFacts.SeqLoopCrashes | src/parser.c:70-78 | with the head still NULL, any run of statements without a node is skipped and the first print after it writes through the NULL head |
| MixedFacts.NonPrintRunThenPrintCrashes | src/parser.c:65-78 | a sequence led by one or more statements without a node crashes on the NULL head at the first print after them |
| MixedFacts.BareRun | src/parser.c:290-306 | a bare `id ;` is a statement of the run that yields no node |
| MixedFacts.PrintsAroundStatement | src/parser.c:55-81 | `print ( 1 ) ; x ; print ( 2 ) ;` is the program of the two print nodes, the bare `x ;` between them dropped |
| MixedFacts.TwoStatementsThenPrintCrash | src/parser.c:55-81 | `x ; y ; print ( 1 ) ;` crashes on the NULL head at the print statement |
| TextFacts.DeclarationEmit | src/parser.c:308-315 | `var x = e ;` is read whole by `stmtVar` for every expression tree `e` |
| TextFacts.IfHeadEmit | src/parser.c:211-214 | `if ( e )` is read whole as an if head for every expression tree `e` |
| TextFacts.ConditionEmit | src/parser.c:199-200 | `c ;` is read whole as a loop condition for every expression tree `c` |
| TextFacts.IncrementEmit | src/parser.c:127-139 | `i = d` before a `)` is read whole as a loop increment for every expression tree `d` |
| TextFacts.ControlEmit | src/parser.c:198-201 | `var x = a ; c ; i = d` before a `)` is read whole as the loop controls for all expression trees `a`, `c`, `d` |
| TextFacts.ControlOf | src/parser.c:198-201 | a declaration, a condition and an increment in a row make the loop controls |
| TextFacts.HeaderOf | src/parser.c:196-202 | `for (`, the controls and `)` make a loop head |
| TextFacts.LoopHeadEmit | src/parser.c:196-202 | `for ( var x = a ; c ; i = d )` is read whole as a loop head for all expression trees |
| TextFacts.LoopBlockEmit | src/parser.c:204-206 | `{ prog }` is read whole as a loop block for every print-only program |
| TextFacts.FuncBlockEmit | src/parser.c:274-276 | `{ prog }` is read whole as a function block without a return for every print-only program |
| TextFacts.SeqOfEmitted | src/parser.c:65-81 | the text of any print-only program, before a token that starts no statement, is read back by `stmtSequence` as exactly that program |
| TextFacts.BlockEmit | src/parser.c:215-217 | `{ prog }` is read whole as an if block for every print-only program |
| TextFacts.IfElseEmit | src/parser.c:209-226 | `if ( e ) { a } else { b }` is read whole as one if statement for every expression tree `e` and print-only programs `a`, `b` |
| TextFacts.LoopEmit | src/parser.c:194-207 | `for ( var x = a ; c ; i = d ) { prog }` is read whole as one loop statement for all expression trees and every print-only program |

## Left out

- The scanner (`getNextToken`, `getIntvalue`, `getStringValue`,
  `getAmountIdentifier`, `getLine`) is not part of this model. The parser
  reads a finite token sequence instead. Past its end, the lookahead is the
  end-of-input kind. A token carries its int value or identifier ordinal and
  its string text.
- Error rendering in `showSyntaxeError` and `syntaxeError` (the buffer, line
  number and identifier count) is left out. A failure records only the cursor
  position. `syntaxeError` is taken to abort the parse, since `utils.h` is not
  part of this model.
- The `DEBUG` `printf` in `match` is diagnostic output only, so it is left
  out.
- Allocation failure (the `if (rightTree)` and `if (leaft)` guards) is left
  out: node creation always succeeds. Under an allocation failure, the loops
  of `term` and `expArithmetic` would spin without consuming a token.
- Memory layout, ownership and freeing of `TreeNode` are left out. Nodes are
  values, and the `next` chain is a sequence.
- The numeric values of the token kinds are left out, since `globals.h` is
  not part of this model. The range test `TOK_EQUAL..TOK_GTE` is the explicit
  set of the six relational kinds.
- Writing through the NULL `auxNode` is undefined behaviour in C. The model
  stops there with `NullDeref`, positioned after the offending print
  statement, instead of modelling what the program would do next.
- The priming `getNextToken` call of `getProgramAST` is the cursor reset
  `pos := 0`.
