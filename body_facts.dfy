/** What the rules inside loops and function definitions accept: a
    declaration with its initialiser, the `id = expression` loop increment,
    the loop and `if` heads over any expression, each statement kind a loop
    or function body reads, a run of print statements in a body,
    `return expression ;`, and whole blocks and definitions built from
    these. */
module BodyFacts {
  import opened Tokens
  import opened Ast
  import opened Grammar
  import opened Unparse
  import opened ExprFacts
  import opened StmtFacts
  import opened ClauseFacts

  // ---------------------------------------------------------------------
  // stmtVar, the loop controls and the if head
  // ---------------------------------------------------------------------

  /** `var id = e ;` is a declaration that ends after the `;`. */
  lemma {:induction false} DeclarationStatement(toks: seq<Token>, p: nat, e: Expr, q: nat)
    requires p + 3 <= |toks| && Peek(toks, p) == TokVar && Peek(toks, p + 1) == TokId
    requires Peek(toks, p + 2) == TokAssign && StmtExp(toks, p + 3) == Ok(e, q)
    requires Peek(toks, q) == TokSemicolon
    ensures StmtVar(toks, p) == Ok((), q + 1)
  {
  }

  /** `stmt` hands a `var` to `stmtVar` and returns no node. */
  lemma {:induction false} StmtOfDeclaration(toks: seq<Token>, p: nat)
    requires p <= |toks| && Peek(toks, p) == TokVar
    ensures Stmt(toks, p) == StmtVar(toks, p).Yield(None)
  {
  }

  /** The increment `id = e` ends where the expression ends. */
  lemma {:induction false} LoopIncrementAssign(toks: seq<Token>, p: nat, e: Expr, q: nat)
    requires p + 2 <= |toks| && Peek(toks, p) == TokId && Peek(toks, p + 1) == TokAssign
    requires StmtExp(toks, p + 2) == Ok(e, q)
    ensures LoopIncrement(toks, p) == Ok((), q)
  {
  }

  /** The condition `e ;` of a loop ends after the `;`. */
  lemma {:induction false} LoopConditionOf(toks: seq<Token>, p: nat, e: Expr, q: nat)
    requires p <= |toks| && StmtExp(toks, p) == Ok(e, q) && Peek(toks, q) == TokSemicolon
    ensures LoopCondition(toks, p) == Ok((), q + 1)
  {
  }

  /** `for ( declaration condition increment )`: the three controls in
      order make a head that ends after the `)`. */
  lemma {:induction false} LoopHeaderOf(toks: seq<Token>, p: nat, a: nat, b: nat, c: nat)
    requires p + 2 <= |toks| && Peek(toks, p) == TokFor && Peek(toks, p + 1) == TokLPar
    requires StmtVar(toks, p + 2) == Ok((), a) && LoopCondition(toks, a) == Ok((), b)
    requires LoopIncrement(toks, b) == Ok((), c) && Peek(toks, c) == TokRPar
    ensures LoopHeader(toks, p) == Ok((), c + 1)
  {
    assert LoopControl(toks, p + 2) == Ok((), c);
  }

  /** A loop head and a loop block make a loop statement. */
  lemma {:induction false} LoopOf(toks: seq<Token>, p: nat, a: nat, b: nat)
    requires p <= |toks| && LoopHeader(toks, p) == Ok((), a) && LoopBlock(toks, a) == Ok((), b)
    ensures StmtLoop(toks, p) == Ok((), b)
  {
  }

  /** `if ( e )` is a head for every expression `e`. */
  lemma {:induction false} IfHeaderOf(toks: seq<Token>, p: nat, e: Expr, q: nat)
    requires p + 2 <= |toks| && Peek(toks, p) == TokIf && Peek(toks, p + 1) == TokLPar
    requires StmtExp(toks, p + 2) == Ok(e, q) && Peek(toks, q) == TokRPar
    ensures IfHeader(toks, p) == Ok((), q + 1)
  {
  }

  // ---------------------------------------------------------------------
  // The body loop of loopBody and funcBody
  // ---------------------------------------------------------------------

  /** The body loop stops, reading nothing, before a token that starts no
      body statement. */
  lemma {:induction false} BodyStops(toks: seq<Token>, p: nat)
    requires p <= |toks| && !StartsBody(Peek(toks, p))
    ensures BodyLoop(toks, p) == Ok((), p)
  {
  }

  /** One turn of the body loop over a print statement. */
  lemma {:induction false} BodyPrintStep(toks: seq<Token>, p: nat, s: StmtNode, q: nat)
    requires p <= |toks| && StmtPrint(toks, p) == Ok(s, q)
    ensures BodyLoop(toks, p) == BodyLoop(toks, q)
  {
  }

  /** One turn of the body loop over an if statement. */
  lemma {:induction false} BodyIfStep(toks: seq<Token>, p: nat, q: nat)
    requires p <= |toks| && StmtIf(toks, p) == Ok((), q)
    ensures BodyLoop(toks, p) == BodyLoop(toks, q)
  {
  }

  /** One turn of the body loop over a declaration. */
  lemma {:induction false} BodyVarStep(toks: seq<Token>, p: nat, q: nat)
    requires p <= |toks| && StmtVar(toks, p) == Ok((), q)
    ensures BodyLoop(toks, p) == BodyLoop(toks, q)
  {
  }

  /** One turn of the body loop over an assignment, call or bare
      identifier. */
  lemma {:induction false} BodyAssignStep(toks: seq<Token>, p: nat, q: nat)
    requires p <= |toks| && StmtAssign(toks, p) == Ok((), q)
    ensures BodyLoop(toks, p) == BodyLoop(toks, q)
  {
  }

  /** The body loop reads a run of print statements read by `stmtPrint`,
      in order, and stops at `end`, where no body statement starts. */
  lemma {:induction false} BodyReadsPrints(toks: seq<Token>, p: nat, prog: seq<StmtNode>, end: nat)
    requires PrintsFrom(toks, p, prog, end) && !StartsBody(Peek(toks, end))
    ensures BodyLoop(toks, p) == Ok((), end)
    decreases |prog|
  {
    if prog == [] {
      BodyStops(toks, p);
    } else {
      var m := StmtPrint(toks, p).next;
      BodyPrintStep(toks, p, prog[0], m);
      BodyReadsPrints(toks, m, prog[1..], end);
    }
  }

  /** The text of any print-only program, followed by a token that starts
      no body statement, is read whole by the body loop. */
  lemma {:induction false} BodyEmit(toks: seq<Token>, p: nat, prog: seq<StmtNode>)
    requires PrintOnly(prog) && At(toks, p, EmitProgram(prog))
    requires !StartsBody(Peek(toks, p + |EmitProgram(prog)|))
    ensures BodyLoop(toks, p) == Ok((), p + |EmitProgram(prog)|)
  {
    PrintedEmit(toks, p, prog);
    BodyOfPrinted(toks, p, prog, p + |EmitProgram(prog)|);
  }

  lemma {:induction false} BodyOfPrinted(toks: seq<Token>, p: nat, prog: seq<StmtNode>, end: nat)
    requires Printed(toks, p, prog, end) && !StartsBody(Peek(toks, end))
    ensures BodyLoop(toks, p) == Ok((), end)
  {
    PrintedPrints(toks, p, prog, end);
    BodyReadsPrints(toks, p, prog, end);
  }

  /** `{`, a body and `}` make a loop block ending after the `}`. */
  lemma {:induction false} LoopBlockOf(toks: seq<Token>, p: nat, m: nat)
    requires p < |toks| && Peek(toks, p) == TokLBrace
    requires BodyLoop(toks, p + 1) == Ok((), m) && Peek(toks, m) == TokRBrace
    ensures LoopBlock(toks, p) == Ok((), m + 1)
  {
  }

  // ---------------------------------------------------------------------
  // funcBody and its return
  // ---------------------------------------------------------------------

  /** `return e ;` with an expression ends after the `;`. */
  lemma {:induction false} ReturnExpression(toks: seq<Token>, p: nat, e: Expr, q: nat)
    requires p + 1 <= |toks| && Peek(toks, p) == TokReturn && Peek(toks, p + 1) != TokString
    requires StmtExp(toks, p + 1) == Ok(e, q) && Peek(toks, q) == TokSemicolon
    ensures FuncReturn(toks, p) == Ok((), q + 1)
  {
  }

  /** Without `return` the end of a function body reads nothing. */
  lemma {:induction false} NoReturnHere(toks: seq<Token>, p: nat)
    requires p <= |toks| && Peek(toks, p) != TokReturn
    ensures FuncReturn(toks, p) == Ok((), p)
  {
  }

  /** `{`, body statements, the optional return and `}` make a function
      block ending after the `}`. */
  lemma {:induction false} FuncBlockOf(toks: seq<Token>, p: nat, m: nat, n: nat)
    requires p < |toks| && Peek(toks, p) == TokLBrace
    requires BodyLoop(toks, p + 1) == Ok((), m) && FuncReturn(toks, m) == Ok((), n)
    requires Peek(toks, n) == TokRBrace
    ensures FuncBlock(toks, p) == Ok((), n + 1)
  {
    assert FuncBody(toks, p + 1) == Ok((), n);
  }

  // ---------------------------------------------------------------------
  // Two function definitions: no parameters, and two parameters
  // ---------------------------------------------------------------------

  /** The tokens of `fun f ( ) { return 1 ; }` and the end of input. */
  function ReturnOneText(f: int): seq<Token> {
    [Tok(TokFun), Token(TokId, f, ""), Tok(TokLPar), Tok(TokRPar),
     Tok(TokLBrace), Tok(TokReturn), Token(TokInt, 1, ""), Tok(TokSemicolon), Tok(TokRBrace),
     Tok(TokEof)]
  }

  lemma {:induction false} ReturnOneHead(f: int)
    ensures FuncHeader(ReturnOneText(f), 0) == Ok((), 4)
  {
    var toks := ReturnOneText(f);
    assert ParamList(toks, 3) == Ok((), 3);
    FunctionHeadOf(toks, 0, 3);
  }

  lemma {:induction false} ReturnOneValue(f: int)
    ensures FuncReturn(ReturnOneText(f), 5) == Ok((), 8)
  {
    var toks := ReturnOneText(f);
    assert toks[6..7] == Emit(ConstK(1));
    StmtExpEmit(toks, 6, ConstK(1));
    ReturnExpression(toks, 5, ConstK(1), 7);
  }

  lemma {:induction false} ReturnOneBlock(f: int)
    ensures FuncBlock(ReturnOneText(f), 4) == Ok((), 9)
  {
    var toks := ReturnOneText(f);
    BodyStops(toks, 5);
    ReturnOneValue(f);
    FuncBlockOf(toks, 4, 5, 8);
  }

  /** `fun f ( ) { return 1 ; }`, a function of no parameters, is one
      statement of nine tokens. */
  lemma {:induction false} FunctionReturningOne(f: int)
    ensures StmtFunc(ReturnOneText(f), 0) == Ok((), 9)
  {
    ReturnOneHead(f);
    ReturnOneBlock(f);
    FunctionOf(ReturnOneText(f), 0, 4, 9);
  }

  /** The tokens of `fun f ( a , b ) { print ( a ) ; }` and the end of
      input. */
  function TwoParamText(f: int, a: int, b: int): seq<Token> {
    [Tok(TokFun), Token(TokId, f, ""), Tok(TokLPar), Token(TokId, a, ""), Tok(TokComma), Token(TokId, b, ""), Tok(TokRPar),
     Tok(TokLBrace), Tok(TokPrint), Tok(TokLPar), Token(TokId, a, ""), Tok(TokRPar), Tok(TokSemicolon), Tok(TokRBrace),
     Tok(TokEof)]
  }

  lemma {:induction false} TwoParamHead(f: int, a: int, b: int)
    ensures FuncHeader(TwoParamText(f, a, b), 0) == Ok((), 7)
  {
    var toks := TwoParamText(f, a, b);
    assert ParamList(toks, 5) == Ok((), 6);
    assert ParamList(toks, 3) == Ok((), 6);
  }

  lemma {:induction false} TwoParamBody(f: int, a: int, b: int)
    ensures BodyLoop(TwoParamText(f, a, b), 8) == Ok((), 13)
  {
    var toks := TwoParamText(f, a, b);
    assert toks[8..13] == EmitStmt(WriteK(IdK(a)));
    PrintEmit(toks, 8, WriteK(IdK(a)));
    BodyPrintStep(toks, 8, WriteK(IdK(a)), 13);
    BodyStops(toks, 13);
  }

  lemma {:induction false} TwoParamBlock(f: int, a: int, b: int)
    ensures FuncBlock(TwoParamText(f, a, b), 7) == Ok((), 14)
  {
    TwoParamBody(f, a, b);
    assert FuncBody(TwoParamText(f, a, b), 8) == Ok((), 13);
  }

  /** `fun f ( a , b ) { print ( a ) ; }`, a function of two parameters, is
      one statement of fourteen tokens. */
  lemma {:induction false} FunctionOfTwoParameters(f: int, a: int, b: int)
    ensures StmtFunc(TwoParamText(f, a, b), 0) == Ok((), 14)
  {
    TwoParamHead(f, a, b);
    TwoParamBlock(f, a, b);
    FunctionOf(TwoParamText(f, a, b), 0, 7, 14);
  }
}
