/** What the rules that build no node accept and reject: parameter and
    argument lists (a trailing comma is fine, an expression argument is
    not), the three forms of `stmtAssign` including the bare `x;`, the
    declaration that needs an initialiser, the loop increment that may be a
    bare identifier, the statements a loop or function body admits, and the
    NULL-head crash inside the block of an `if`. */
module ClauseFacts {
  import opened Tokens
  import opened Ast
  import opened Grammar
  import opened Unparse
  import opened ExprFacts
  import opened StmtFacts

  /** The kinds `ks` lie at the cursor `p`, one per token. */
  predicate KindsAt(toks: seq<Token>, p: nat, ks: seq<Kind>) {
    forall i :: 0 <= i < |ks| ==> Peek(toks, p + i) == ks[i]
  }

  /** Kinds `argumentsList` takes as an argument. */
  predicate IsArgument(k: Kind) {
    k in {TokId, TokInt, TokString}
  }

  /** `items` separated by commas, with one more comma after the last item
      when `trailing` holds. */
  function Listed(items: seq<Kind>, trailing: bool): seq<Kind>
    decreases |items|
  {
    if items == [] then []
    else if |items| == 1 && !trailing then items
    else [items[0], TokComma] + Listed(items[1..], trailing)
  }

  lemma {:induction false} KindsAtDrop(toks: seq<Token>, p: nat, ks: seq<Kind>, k: nat)
    requires KindsAt(toks, p, ks) && k <= |ks|
    ensures KindsAt(toks, p + k, ks[k..])
  {
    forall i | 0 <= i < |ks| - k
      ensures Peek(toks, p + k + i) == ks[k..][i]
    {
      assert Peek(toks, p + (k + i)) == ks[k + i];
    }
  }

  lemma {:induction false} KindsAtIndex(toks: seq<Token>, p: nat, ks: seq<Kind>, i: nat)
    requires KindsAt(toks, p, ks) && i < |ks|
    ensures Peek(toks, p + i) == ks[i]
  {
  }

  /** A list of more than one token opens with an item and a comma. */
  lemma {:induction false} ListedStep(toks: seq<Token>, p: nat, items: seq<Kind>, trailing: bool)
    requires items != [] && !(|items| == 1 && !trailing)
    requires KindsAt(toks, p, Listed(items, trailing))
    ensures Peek(toks, p) == items[0] && Peek(toks, p + 1) == TokComma
    ensures KindsAt(toks, p + 2, Listed(items[1..], trailing))
  {
    var ks := Listed(items, trailing);
    assert ks == [items[0], TokComma] + Listed(items[1..], trailing);
    KindsAtIndex(toks, p, ks, 0);
    KindsAtIndex(toks, p, ks, 1);
    KindsAtDrop(toks, p, ks, 2);
    assert ks[2..] == Listed(items[1..], trailing);
  }

  /** A list of one item and no trailing comma is that item. */
  lemma {:induction false} ListedLast(toks: seq<Token>, p: nat, items: seq<Kind>)
    requires |items| == 1 && KindsAt(toks, p, Listed(items, false))
    ensures Peek(toks, p) == items[0] && |Listed(items, false)| == 1
  {
    KindsAtIndex(toks, p, Listed(items, false), 0);
  }

  /** Each item after the first of a list of items is one too. */
  lemma {:induction false} ItemsTail(items: seq<Kind>, allowed: set<Kind>)
    requires items != [] && forall k | k in items :: k in allowed
    ensures items[0] in allowed && forall k | k in items[1..] :: k in allowed
  {
    assert items[0] in items;
    forall k | k in items[1..] ensures k in allowed {
      var i :| 0 <= i < |items[1..]| && items[1..][i] == k;
      assert items[i + 1] == k;
    }
  }

  /** How long a list is. */
  lemma {:induction false} ListedLength(items: seq<Kind>, trailing: bool)
    requires items != [] && !(|items| == 1 && !trailing)
    ensures |Listed(items, trailing)| == 2 + |Listed(items[1..], trailing)|
  {
  }

  // ---------------------------------------------------------------------
  // paramList
  // ---------------------------------------------------------------------

  lemma {:induction false} ParamStep(toks: seq<Token>, p: nat)
    requires p <= |toks| && Peek(toks, p) == TokId && Peek(toks, p + 1) == TokComma
    ensures p + 2 <= |toks| && ParamList(toks, p) == ParamList(toks, p + 2)
  {
  }

  lemma {:induction false} ParamLast(toks: seq<Token>, p: nat)
    requires p <= |toks| && Peek(toks, p) == TokId && Peek(toks, p + 1) == TokRPar
    ensures ParamList(toks, p) == Ok((), p + 1)
  {
  }

  /** Identifiers separated by commas, with or without a comma after the
      last one, are read up to the closing `)`. */
  lemma {:induction false} ParamListReads(toks: seq<Token>, p: nat, items: seq<Kind>, trailing: bool)
    requires p <= |toks|
    requires forall k | k in items :: k in {TokId}
    requires KindsAt(toks, p, Listed(items, trailing))
    requires Peek(toks, p + |Listed(items, trailing)|) == TokRPar
    ensures ParamList(toks, p) == Ok((), p + |Listed(items, trailing)|)
    decreases |items|
  {
    if items == [] {
    } else if |items| == 1 && !trailing {
      ItemsTail(items, {TokId});
      ListedLast(toks, p, items);
      ParamLast(toks, p);
    } else {
      ItemsTail(items, {TokId});
      ListedStep(toks, p, items, trailing);
      ListedLength(items, trailing);
      ParamStep(toks, p);
      ParamListReads(toks, p + 2, items[1..], trailing);
    }
  }

  /** Two parameters need a comma between them. */
  lemma {:induction false} ParamMissingComma(toks: seq<Token>, p: nat)
    requires p <= |toks| && Peek(toks, p) == TokId
    requires Peek(toks, p + 1) !in {TokRPar, TokComma}
    ensures ParamList(toks, p) == Fail(SyntaxError(p + 1))
  {
  }

  // ---------------------------------------------------------------------
  // argumentsList and stmtAssign
  // ---------------------------------------------------------------------

  lemma {:induction false} ArgumentStep(toks: seq<Token>, p: nat)
    requires p <= |toks| && IsArgument(Peek(toks, p)) && Peek(toks, p + 1) == TokComma
    ensures p + 2 <= |toks| && ArgumentsList(toks, p) == ArgumentsList(toks, p + 2)
  {
  }

  lemma {:induction false} ArgumentLast(toks: seq<Token>, p: nat)
    requires p <= |toks| && IsArgument(Peek(toks, p)) && Peek(toks, p + 1) == TokRPar
    ensures ArgumentsList(toks, p) == Ok((), p + 1)
  {
  }

  /** Identifiers and literals separated by commas, with or without a comma
      after the last one, are read up to the closing `)`. */
  lemma {:induction false} ArgumentsReads(toks: seq<Token>, p: nat, items: seq<Kind>, trailing: bool)
    requires p <= |toks|
    requires forall k | k in items :: k in {TokId, TokInt, TokString}
    requires KindsAt(toks, p, Listed(items, trailing))
    requires Peek(toks, p + |Listed(items, trailing)|) == TokRPar
    ensures ArgumentsList(toks, p) == Ok((), p + |Listed(items, trailing)|)
    decreases |items|
  {
    if items == [] {
    } else if |items| == 1 && !trailing {
      ItemsTail(items, {TokId, TokInt, TokString});
      ListedLast(toks, p, items);
      ArgumentLast(toks, p);
    } else {
      ItemsTail(items, {TokId, TokInt, TokString});
      ListedStep(toks, p, items, trailing);
      ListedLength(items, trailing);
      ArgumentStep(toks, p);
      ArgumentsReads(toks, p + 2, items[1..], trailing);
    }
  }

  /** An argument must be followed by `,` or `)`: `f(a + 1)` stops at `+`. */
  lemma {:induction false} ArgumentIsNoExpression(toks: seq<Token>, p: nat)
    requires p <= |toks| && IsArgument(Peek(toks, p))
    requires Peek(toks, p + 1) !in {TokRPar, TokComma}
    ensures ArgumentsList(toks, p) == Fail(SyntaxError(p + 1))
  {
  }

  /** `stmt` hands an identifier-led statement to `stmtAssign`. */
  lemma {:induction false} StmtOfAssign(toks: seq<Token>, p: nat)
    requires p <= |toks| && Peek(toks, p) == TokId
    ensures Stmt(toks, p) == StmtAssign(toks, p).Yield(None)
  {
  }

  /** A call statement `f ( arguments ) ;` is accepted, trailing comma or
      not. */
  lemma {:induction false} CallStatement(toks: seq<Token>, p: nat, items: seq<Kind>, trailing: bool, end: nat)
    requires p <= |toks| && Peek(toks, p) == TokId && Peek(toks, p + 1) == TokLPar
    requires forall k | k in items :: k in {TokId, TokInt, TokString}
    requires KindsAt(toks, p + 2, Listed(items, trailing))
    requires end == p + 2 + |Listed(items, trailing)|
    requires Peek(toks, end) == TokRPar && Peek(toks, end + 1) == TokSemicolon
    ensures StmtAssign(toks, p) == Ok((), end + 2)
  {
    ArgumentsReads(toks, p + 2, items, trailing);
    CallTail(toks, p + 1, end);
    AssignOf(toks, p, end + 1);
  }

  lemma {:induction false} AssignOf(toks: seq<Token>, p: nat, q: nat)
    requires p + 1 <= |toks| && Peek(toks, p) == TokId
    requires AssignTail(toks, p + 1) == Ok((), q) && Peek(toks, q) == TokSemicolon
    ensures StmtAssign(toks, p) == Ok((), q + 1)
  {
  }

  lemma {:induction false} CallTail(toks: seq<Token>, p: nat, end: nat)
    requires p <= |toks| && Peek(toks, p) == TokLPar
    requires ArgumentsList(toks, p + 1) == Ok((), end) && Peek(toks, end) == TokRPar
    ensures AssignTail(toks, p) == Ok((), end + 1)
  {
  }

  /** A call whose argument is an expression is a syntax error at the token
      after the first operand. */
  lemma {:induction false} CallRejectsExpression(toks: seq<Token>, p: nat)
    requires p <= |toks| && Peek(toks, p) == TokId && Peek(toks, p + 1) == TokLPar
    requires IsArgument(Peek(toks, p + 2)) && Peek(toks, p + 3) !in {TokRPar, TokComma}
    ensures StmtAssign(toks, p) == Fail(SyntaxError(p + 3))
  {
    ArgumentIsNoExpression(toks, p + 2);
    assert AssignTail(toks, p + 1) == Fail(SyntaxError(p + 3));
  }

  /** `x;` is a statement: an identifier with neither `=` nor `(` after it
      falls through to the `;`, and leaves no node. */
  lemma {:induction false} BareIdentifierStatement(toks: seq<Token>, p: nat)
    requires p <= |toks| && Peek(toks, p) == TokId && Peek(toks, p + 1) == TokSemicolon
    ensures Stmt(toks, p) == Ok(None, p + 2)
  {
    BareTail(toks, p + 1);
    StmtOfAssign(toks, p);
  }

  lemma {:induction false} BareTail(toks: seq<Token>, p: nat)
    requires p <= |toks| && Peek(toks, p) !in {TokAssign, TokLPar}
    ensures AssignTail(toks, p) == Ok((), p)
  {
  }

  /** An identifier followed by anything but `=`, `(` or `;` is a syntax
      error at the second token. */
  lemma {:induction false} AssignNeedsTail(toks: seq<Token>, p: nat)
    requires p <= |toks| && Peek(toks, p) == TokId
    requires Peek(toks, p + 1) !in {TokAssign, TokLPar, TokSemicolon}
    ensures StmtAssign(toks, p) == Fail(SyntaxError(p + 1))
  {
    BareTail(toks, p + 1);
  }

  /** An assignment reads its expression, then the `;`. */
  lemma {:induction false} AssignmentStatement(toks: seq<Token>, p: nat, e: Expr, q: nat)
    requires p + 2 <= |toks| && Peek(toks, p) == TokId && Peek(toks, p + 1) == TokAssign
    requires StmtExp(toks, p + 2) == Ok(e, q) && Peek(toks, q) == TokSemicolon
    ensures StmtAssign(toks, p) == Ok((), q + 1)
  {
    assert AssignTail(toks, p + 1) == Ok((), q);
  }

  // ---------------------------------------------------------------------
  // stmtVar
  // ---------------------------------------------------------------------

  /** A declaration needs its initialiser: `var x;` fails at the `;`. */
  lemma {:induction false} DeclarationNeedsInitialiser(toks: seq<Token>, p: nat)
    requires p <= |toks| && Peek(toks, p) == TokVar && Peek(toks, p + 1) == TokId
    requires Peek(toks, p + 2) != TokAssign
    ensures StmtVar(toks, p) == Fail(SyntaxError(p + 2))
  {
  }

  // ---------------------------------------------------------------------
  // stmtLoop
  // ---------------------------------------------------------------------

  /** The loop increment `i++` and `i--` take two tokens. */
  lemma {:induction false} LoopIncrementStep(toks: seq<Token>, p: nat)
    requires p <= |toks| && Peek(toks, p) == TokId
    requires Peek(toks, p + 1) in {TokIncrement, TokDecrement}
    ensures LoopIncrement(toks, p) == Ok((), p + 2)
  {
  }

  /** A bare identifier is a loop increment: whatever follows it that is not
      `++`, `--` or `=` is left for the caller. */
  lemma {:induction false} LoopIncrementBareId(toks: seq<Token>, p: nat)
    requires p <= |toks| && Peek(toks, p) == TokId
    requires Peek(toks, p + 1) !in {TokIncrement, TokDecrement, TokAssign}
    ensures LoopIncrement(toks, p) == Ok((), p + 1)
  {
  }

  /** The head `for ( declaration condition ; i )` with a bare increment. */
  lemma {:induction false} HeadWithBareIncrement(toks: seq<Token>, p: nat, a: nat, c: Expr, b: nat)
    requires p + 2 <= |toks| && Peek(toks, p) == TokFor && Peek(toks, p + 1) == TokLPar
    requires StmtVar(toks, p + 2) == Ok((), a) && StmtExp(toks, a) == Ok(c, b)
    requires Peek(toks, b) == TokSemicolon && Peek(toks, b + 1) == TokId && Peek(toks, b + 2) == TokRPar
    ensures LoopHeader(toks, p) == Ok((), b + 3)
  {
    LoopIncrementBareId(toks, b + 1);
    assert LoopCondition(toks, a) == Ok((), b + 1);
    assert LoopControl(toks, p + 2) == Ok((), b + 2);
  }

  /** A loop block with no statements. */
  lemma {:induction false} EmptyLoopBlock(toks: seq<Token>, p: nat)
    requires p <= |toks| && Peek(toks, p) == TokLBrace && Peek(toks, p + 1) == TokRBrace
    ensures LoopBlock(toks, p) == Ok((), p + 2)
  {
    assert BodyLoop(toks, p + 1) == Ok((), p + 1);
  }

  /** `stmt` hands a `for` to `stmtLoop`. */
  lemma {:induction false} StmtOfLoop(toks: seq<Token>, p: nat)
    requires p <= |toks| && Peek(toks, p) == TokFor
    ensures Stmt(toks, p) == StmtLoop(toks, p).Yield(None)
  {
  }

  /** So `for ( declaration condition ; i ) { }` is a loop. */
  lemma {:induction false} LoopWithBareIncrement(toks: seq<Token>, p: nat, a: nat, c: Expr, b: nat)
    requires p + 2 <= |toks| && Peek(toks, p) == TokFor && Peek(toks, p + 1) == TokLPar
    requires StmtVar(toks, p + 2) == Ok((), a) && StmtExp(toks, a) == Ok(c, b)
    requires Peek(toks, b) == TokSemicolon && Peek(toks, b + 1) == TokId && Peek(toks, b + 2) == TokRPar
    requires Peek(toks, b + 3) == TokLBrace && Peek(toks, b + 4) == TokRBrace
    ensures StmtLoop(toks, p) == Ok((), b + 5)
  {
    HeadWithBareIncrement(toks, p, a, c, b);
    EmptyLoopBlock(toks, b + 3);
  }

  /** A loop body admits print, if, var and identifier-led statements only:
      a `for` or `fun` after any of them ends the body, and the `}` is then
      missing at that token. */
  lemma {:induction false} LoopBodyAdmitsNoLoop(toks: seq<Token>, p: nat, m: nat)
    requires p < |toks| && Peek(toks, p) == TokLBrace
    requires BodyLoop(toks, p + 1) == Ok((), m) && Peek(toks, m) in {TokFor, TokFun}
    ensures LoopBlock(toks, p) == Fail(SyntaxError(m))
  {
  }

  // ---------------------------------------------------------------------
  // stmtFunc and funcBody
  // ---------------------------------------------------------------------

  /** A function head takes its parameters with or without a trailing
      comma. */
  lemma {:induction false} FunctionHead(toks: seq<Token>, p: nat, items: seq<Kind>, trailing: bool, end: nat)
    requires p <= |toks| && Peek(toks, p) == TokFun && Peek(toks, p + 1) == TokId && Peek(toks, p + 2) == TokLPar
    requires forall k | k in items :: k in {TokId}
    requires KindsAt(toks, p + 3, Listed(items, trailing))
    requires end == p + 3 + |Listed(items, trailing)| && Peek(toks, end) == TokRPar
    ensures FuncHeader(toks, p) == Ok((), end + 1)
  {
    ParamListReads(toks, p + 3, items, trailing);
    FunctionHeadOf(toks, p, end);
  }

  lemma {:induction false} FunctionHeadOf(toks: seq<Token>, p: nat, end: nat)
    requires p <= |toks| && Peek(toks, p) == TokFun && Peek(toks, p + 1) == TokId && Peek(toks, p + 2) == TokLPar
    requires p + 3 <= |toks| && ParamList(toks, p + 3) == Ok((), end) && Peek(toks, end) == TokRPar
    ensures FuncHeader(toks, p) == Ok((), end + 1)
  {
  }

  /** A function block of no statements and no return. */
  lemma {:induction false} EmptyFunctionBlock(toks: seq<Token>, p: nat)
    requires p <= |toks| && Peek(toks, p) == TokLBrace && Peek(toks, p + 1) == TokRBrace
    ensures FuncBlock(toks, p) == Ok((), p + 2)
  {
    EmptyFunctionBody(toks, p + 1);
  }

  lemma {:induction false} EmptyFunctionBody(toks: seq<Token>, p: nat)
    requires p <= |toks| && Peek(toks, p) == TokRBrace
    ensures FuncBody(toks, p) == Ok((), p)
  {
    assert BodyLoop(toks, p) == Ok((), p);
  }

  /** `stmt` hands a `fun` to `stmtFunc`. */
  lemma {:induction false} StmtOfFunction(toks: seq<Token>, p: nat)
    requires p <= |toks| && Peek(toks, p) == TokFun
    ensures Stmt(toks, p) == StmtFunc(toks, p).Yield(None)
  {
  }

  /** So `fun f ( a , b , ) { }` is a statement that leaves no node. */
  lemma {:induction false} FunctionWithTrailingComma(toks: seq<Token>, p: nat, items: seq<Kind>, end: nat)
    requires p <= |toks| && Peek(toks, p) == TokFun && Peek(toks, p + 1) == TokId && Peek(toks, p + 2) == TokLPar
    requires forall k | k in items :: k in {TokId}
    requires KindsAt(toks, p + 3, Listed(items, true))
    requires end == p + 3 + |Listed(items, true)|
    requires Peek(toks, end) == TokRPar && Peek(toks, end + 1) == TokLBrace && Peek(toks, end + 2) == TokRBrace
    ensures Stmt(toks, p) == Ok(None, end + 3)
  {
    FunctionHead(toks, p, items, true, end);
    EmptyFunctionBlock(toks, end + 1);
    FunctionOf(toks, p, end + 1, end + 3);
    StmtOfFunction(toks, p);
  }

  lemma {:induction false} FunctionOf(toks: seq<Token>, p: nat, q: nat, r: nat)
    requires p <= |toks| && FuncHeader(toks, p) == Ok((), q) && FuncBlock(toks, q) == Ok((), r)
    ensures StmtFunc(toks, p) == Ok((), r)
  {
  }

  /** The return of a function body may give a string literal. */
  lemma {:induction false} ReturnString(toks: seq<Token>, p: nat)
    requires p <= |toks| && Peek(toks, p) == TokReturn && Peek(toks, p + 1) == TokString
    requires Peek(toks, p + 2) == TokSemicolon
    ensures FuncReturn(toks, p) == Ok((), p + 3)
  {
  }

  /** A function body admits the statements of a loop body only: a `for` or
      `fun` after any of them ends the body, there is no `return` there, and
      the `}` is then missing at that token. */
  lemma {:induction false} FunctionBodyAdmitsNoLoop(toks: seq<Token>, p: nat, m: nat)
    requires p < |toks| && Peek(toks, p) == TokLBrace
    requires BodyLoop(toks, p + 1) == Ok((), m) && Peek(toks, m) in {TokFor, TokFun}
    ensures FuncBlock(toks, p) == Fail(SyntaxError(m))
  {
    assert FuncReturn(toks, m) == Ok((), m);
  }

  lemma {:induction false} NoReturn(toks: seq<Token>, p: nat)
    requires p <= |toks| && Peek(toks, p) in {TokFor, TokFun}
    ensures FuncBody(toks, p) == Ok((), p)
  {
    assert BodyLoop(toks, p) == Ok((), p);
  }

  // ---------------------------------------------------------------------
  // stmtIf
  // ---------------------------------------------------------------------

  /** `stmt` hands an `if` to `stmtIf`. */
  lemma {:induction false} StmtOfIf(toks: seq<Token>, p: nat)
    requires p <= |toks| && Peek(toks, p) == TokIf
    ensures Stmt(toks, p) == StmtIf(toks, p).Yield(None)
  {
  }

  /** A block whose sequence fails fails the same way. */
  lemma {:induction false} BlockFails(toks: seq<Token>, p: nat, f: Failure)
    requires p <= |toks| && Peek(toks, p) == TokLBrace && Seq(toks, p + 1) == Fail(f)
    ensures Block(toks, p) == Fail(f)
  {
  }

  /** The block of an `if` is a full statement sequence, NULL head and all:
      whatever failure that sequence meets, the NULL-head crash of
      `StmtFacts.NonPrintThenPrintCrashes` among them, is the failure of the
      whole `if`. */
  lemma {:induction false} IfSequenceFails(toks: seq<Token>, p: nat, a: nat, f: Failure)
    requires p <= |toks| && IfHeader(toks, p) == Ok((), a) && Peek(toks, a) == TokLBrace
    requires Seq(toks, a + 1) == Fail(f)
    ensures StmtIf(toks, p) == Fail(f)
  {
    BlockFails(toks, a, f);
    IfFailsInBlock(toks, p, a, f);
  }

  lemma {:induction false} IfFailsInBlock(toks: seq<Token>, p: nat, a: nat, f: Failure)
    requires p <= |toks| && IfHeader(toks, p) == Ok((), a) && Block(toks, a) == Fail(f)
    ensures StmtIf(toks, p) == Fail(f)
  {
  }

  /** A block around a statement sequence. */
  lemma {:induction false} BlockOf(toks: seq<Token>, p: nat, prog: seq<StmtNode>, m: nat)
    requires p < |toks| && Peek(toks, p) == TokLBrace
    requires Seq(toks, p + 1) == Ok(prog, m) && Peek(toks, m) == TokRBrace
    ensures Block(toks, p) == Ok((), m + 1)
  {
  }

  /** `{ print ( arg ) ; }` is a block. */
  lemma {:induction false} BlockOfPrint(toks: seq<Token>, p: nat, s: StmtNode, m: nat)
    requires p < |toks| && Peek(toks, p) == TokLBrace
    requires IsPrintArg(s.arg) && At(toks, p + 1, EmitStmt(s))
    requires m == p + 1 + |EmitStmt(s)| && Peek(toks, m) == TokRBrace
    ensures Block(toks, p) == Ok((), m + 1)
  {
    PrintEmit(toks, p + 1, s);
    SeqPrint(toks, p + 1, s, m);
    SeqLoopStops(toks, m, [s]);
    BlockOf(toks, p, [s], m);
  }

  /** With an `else` and its block the `if` ends after that block. */
  lemma {:induction false} IfWithElse(toks: seq<Token>, p: nat, a: nat, b: nat, c: nat)
    requires p <= |toks| && IfHeader(toks, p) == Ok((), a) && Block(toks, a) == Ok((), b)
    requires Peek(toks, b) == TokElse && Block(toks, b + 1) == Ok((), c)
    ensures StmtIf(toks, p) == Ok((), c)
  {
  }

  /** The tokens of `if ( x > 0 ) { print ( x ) ; } else { print ( 0 ) ; }`
      and the end of input. */
  function IfElseText(x: int): seq<Token> {
    [Tok(TokIf), Tok(TokLPar), Token(TokId, x, ""), Tok(TokGt), Token(TokInt, 0, ""), Tok(TokRPar),
     Tok(TokLBrace), Tok(TokPrint), Tok(TokLPar), Token(TokId, x, ""), Tok(TokRPar), Tok(TokSemicolon), Tok(TokRBrace),
     Tok(TokElse),
     Tok(TokLBrace), Tok(TokPrint), Tok(TokLPar), Token(TokInt, 0, ""), Tok(TokRPar), Tok(TokSemicolon), Tok(TokRBrace),
     Tok(TokEof)]
  }

  lemma {:induction false} IfElseCondition(x: int)
    ensures StmtExp(IfElseText(x), 2) == Ok(OpK(TokGt, IdK(x), ConstK(0)), 5)
  {
    var toks := IfElseText(x);
    assert toks[2..5] == Emit(OpK(TokGt, IdK(x), ConstK(0)));
    StmtExpEmit(toks, 2, OpK(TokGt, IdK(x), ConstK(0)));
  }

  lemma {:induction false} IfElseHead(x: int)
    ensures IfHeader(IfElseText(x), 0) == Ok((), 6)
  {
    IfElseCondition(x);
  }

  lemma {:induction false} IfElseThen(x: int)
    ensures Block(IfElseText(x), 6) == Ok((), 13)
  {
    var toks := IfElseText(x);
    assert toks[7..12] == EmitStmt(WriteK(IdK(x)));
    BlockOfPrint(toks, 6, WriteK(IdK(x)), 12);
  }

  lemma {:induction false} IfElseElse(x: int)
    ensures Block(IfElseText(x), 14) == Ok((), 21)
  {
    var toks := IfElseText(x);
    assert toks[15..20] == EmitStmt(WriteK(ConstK(0)));
    BlockOfPrint(toks, 14, WriteK(ConstK(0)), 20);
  }

  /** `if ( x > 0 ) { print ( x ) ; } else { print ( 0 ) ; }` is an if
      statement of 21 tokens. */
  lemma {:induction false} IfElseOfPrints(x: int)
    ensures StmtIf(IfElseText(x), 0) == Ok((), 21)
  {
    IfElseHead(x);
    IfElseThen(x);
    IfElseElse(x);
    IfWithElse(IfElseText(x), 0, 6, 13, 21);
  }

  /** Without an `else` the `if` ends after its block. */
  lemma {:induction false} IfWithoutElse(toks: seq<Token>, p: nat, a: nat, b: nat)
    requires p <= |toks| && IfHeader(toks, p) == Ok((), a) && Block(toks, a) == Ok((), b)
    requires Peek(toks, b) != TokElse
    ensures StmtIf(toks, p) == Ok((), b)
  {
  }

  /** With an `else` a second block must follow. */
  lemma {:induction false} IfElseNeedsBlock(toks: seq<Token>, p: nat, a: nat, b: nat)
    requires p <= |toks| && IfHeader(toks, p) == Ok((), a) && Block(toks, a) == Ok((), b)
    requires Peek(toks, b) == TokElse && Peek(toks, b + 1) != TokLBrace
    ensures StmtIf(toks, p) == Fail(SyntaxError(b + 1))
  {
    BlockNeedsBrace(toks, b + 1);
  }

  lemma {:induction false} BlockNeedsBrace(toks: seq<Token>, p: nat)
    requires p <= |toks| && Peek(toks, p) != TokLBrace
    ensures Block(toks, p) == Fail(SyntaxError(p))
  {
  }
}
