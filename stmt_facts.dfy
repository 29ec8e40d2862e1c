/** What the statement rules promise: the text of a print-only program
    parses back to its list of nodes; only print statements survive in the
    list; a list whose first statement is not a print stays empty, and the
    next print statement is written through the NULL head. */
module StmtFacts {
  import opened Tokens
  import opened Ast
  import opened Grammar
  import opened Unparse
  import opened ExprFacts

  // ---------------------------------------------------------------------
  // Print statements and print-only programs.
  // ---------------------------------------------------------------------

  /** The text of a print argument parses back to it when `)` follows. */
  lemma {:induction false} PrintArgEmit(toks: seq<Token>, p: nat, arg: Expr)
    requires IsPrintArg(arg) && At(toks, p, Emit(arg))
    requires Peek(toks, p + |Emit(arg)|) == TokRPar
    ensures PrintArg(toks, p) == Ok(arg, p + |Emit(arg)|)
  {
    AtPeek(toks, p, Emit(arg));
    if !arg.StringK? {
      EmitHead(arg);
      StmtExpEmit(toks, p, arg);
    }
  }

  /** `print ( arg ) ;` after the argument has been read. */
  lemma {:induction false} PrintStep(toks: seq<Token>, p: nat, arg: Expr, q: nat)
    requires p + 1 < |toks| && Peek(toks, p) == TokPrint && Peek(toks, p + 1) == TokLPar
    requires PrintArg(toks, p + 2) == Ok(arg, q)
    requires Peek(toks, q) == TokRPar && Peek(toks, q + 1) == TokSemicolon
    ensures StmtPrint(toks, p) == Ok(WriteK(arg), q + 2)
  {
  }

  /** A print statement without its `;` is a syntax error at the token
      after the `)`, and builds no node. */
  lemma {:induction false} PrintNeedsSemicolon(toks: seq<Token>, p: nat, arg: Expr, q: nat)
    requires p + 1 < |toks| && Peek(toks, p) == TokPrint && Peek(toks, p + 1) == TokLPar
    requires PrintArg(toks, p + 2) == Ok(arg, q)
    requires Peek(toks, q) == TokRPar && Peek(toks, q + 1) != TokSemicolon
    ensures StmtPrint(toks, p) == Fail(SyntaxError(q + 1))
  {
  }

  /** Comparisons do not chain: `stmtExp` stops before a second relational
      operator, so the `)` that `stmtPrint` then expects is missing there. */
  lemma {:induction false} ChainedComparisonFails(toks: seq<Token>, p: nat, e: Expr, q: nat)
    requires p + 1 < |toks| && Peek(toks, p) == TokPrint && Peek(toks, p + 1) == TokLPar
    requires PrintArg(toks, p + 2) == Ok(e, q) && IsRelational(Peek(toks, q))
    ensures StmtPrint(toks, p) == Fail(SyntaxError(q))
  {
  }

  /** So `print ( a < b < c ) ;` is a syntax error at the second `<`. */
  lemma {:induction false} ChainedComparisonExample(a: int, b: int, c: int)
    ensures
      var toks := [Tok(TokPrint), Tok(TokLPar), Token(TokId, a, ""), Tok(TokLt), Token(TokId, b, ""), Tok(TokLt),
                   Token(TokId, c, ""), Tok(TokRPar), Tok(TokSemicolon), Tok(TokEof)];
      StmtPrint(toks, 0) == Fail(SyntaxError(5))
  {
    var toks := [Tok(TokPrint), Tok(TokLPar), Token(TokId, a, ""), Tok(TokLt), Token(TokId, b, ""), Tok(TokLt),
                 Token(TokId, c, ""), Tok(TokRPar), Tok(TokSemicolon), Tok(TokEof)];
    var e := OpK(TokLt, IdK(a), IdK(b));
    assert toks[2..5] == Emit(e);
    StmtExpEmit(toks, 2, e);
    ChainedComparisonFails(toks, 0, e, 5);
  }

  /** The four fixed tokens of a print statement's text. */
  lemma {:induction false} PrintFrame(toks: seq<Token>, p: nat, s: StmtNode)
    requires At(toks, p, EmitStmt(s))
    ensures p + 1 < |toks| && Peek(toks, p) == TokPrint && Peek(toks, p + 1) == TokLPar
    ensures Peek(toks, p + 2 + |Emit(s.arg)|) == TokRPar
    ensures Peek(toks, p + 3 + |Emit(s.arg)|) == TokSemicolon
    ensures |EmitStmt(s)| == |Emit(s.arg)| + 4
  {
    var n := |Emit(s.arg)|;
    AtIndex(toks, p, EmitStmt(s), 0);
    AtIndex(toks, p, EmitStmt(s), 1);
    AtIndex(toks, p, EmitStmt(s), n + 2);
    AtIndex(toks, p, EmitStmt(s), n + 3);
  }

  /** The argument's text inside a print statement's text. */
  lemma {:induction false} PrintArgAt(toks: seq<Token>, p: nat, s: StmtNode)
    requires At(toks, p, EmitStmt(s))
    ensures At(toks, p + 2, Emit(s.arg))
  {
    AtSplit(toks, p, [Tok(TokPrint), Tok(TokLPar)] + Emit(s.arg), [Tok(TokRPar), Tok(TokSemicolon)]);
    AtSplit(toks, p, [Tok(TokPrint), Tok(TokLPar)], Emit(s.arg));
  }

  /** The text of a print statement parses back to it. */
  lemma {:induction false} PrintEmit(toks: seq<Token>, p: nat, s: StmtNode)
    requires IsPrintArg(s.arg) && At(toks, p, EmitStmt(s))
    ensures StmtPrint(toks, p) == Ok(s, p + |EmitStmt(s)|)
  {
    PrintFrame(toks, p, s);
    PrintArgAt(toks, p, s);
    PrintArgEmit(toks, p + 2, s.arg);
    PrintStep(toks, p, s.arg, p + 2 + |Emit(s.arg)|);
  }

  /** `stmt` on a print statement yields its node. */
  lemma {:induction false} StmtOfPrint(toks: seq<Token>, p: nat, s: StmtNode, q: nat)
    requires p <= |toks| && StmtPrint(toks, p) == Ok(s, q)
    ensures Stmt(toks, p) == Ok(Some(s), q)
  {
  }

  /** Every node of `prog` has an argument a print statement can carry. */
  predicate PrintOnly(prog: seq<StmtNode>) {
    forall i :: 0 <= i < |prog| ==> IsPrintArg(prog[i].arg)
  }

  lemma {:induction false} PrintOnlyTail(prog: seq<StmtNode>)
    requires prog != [] && PrintOnly(prog)
    ensures IsPrintArg(prog[0].arg) && PrintOnly(prog[1..])
  {
    forall i | 0 <= i < |prog| - 1 ensures IsPrintArg(prog[1..][i].arg) {
      assert prog[1..][i] == prog[i + 1];
    }
  }

  /** The statements of `prog`, each a print statement, stand one after the
      other in `toks` from `p` to `end`. */
  predicate Printed(toks: seq<Token>, p: nat, prog: seq<StmtNode>, end: nat)
    decreases |prog|
  {
    if prog == [] then p == end <= |toks|
    else
      IsPrintArg(prog[0].arg) && At(toks, p, EmitStmt(prog[0])) &&
      Printed(toks, p + |EmitStmt(prog[0])|, prog[1..], end)
  }

  /** The text of a print-only program is its statements one after the
      other. */
  lemma {:induction false} PrintedEmit(toks: seq<Token>, p: nat, prog: seq<StmtNode>)
    requires PrintOnly(prog) && At(toks, p, EmitProgram(prog))
    ensures Printed(toks, p, prog, p + |EmitProgram(prog)|)
    decreases |prog|
  {
    if prog != [] {
      AtSplit(toks, p, EmitStmt(prog[0]), EmitProgram(prog[1..]));
      PrintOnlyTail(prog);
      PrintedEmit(toks, p + |EmitStmt(prog[0])|, prog[1..]);
      PrintedCons(toks, p, prog, p + |EmitProgram(prog)|);
    }
  }

  /** The inductive step of PrintedEmit. */
  lemma {:induction false} PrintedCons(toks: seq<Token>, p: nat, prog: seq<StmtNode>, end: nat)
    requires prog != [] && IsPrintArg(prog[0].arg) && At(toks, p, EmitStmt(prog[0]))
    requires Printed(toks, p + |EmitStmt(prog[0])|, prog[1..], end)
    ensures Printed(toks, p, prog, end)
  {
  }

  /** One turn of the `stmtSequence` loop over a print statement. */
  lemma {:induction false} SeqLoopPrint(toks: seq<Token>, p: nat, chain: seq<StmtNode>, s: StmtNode, q: nat)
    requires p <= |toks| && chain != [] && StmtPrint(toks, p) == Ok(s, q)
    ensures SeqLoop(toks, p, chain) == SeqLoop(toks, q, chain + [s])
  {
    StmtOfPrint(toks, p, s, q);
  }

  /** `stmtSequence` over a first print statement. */
  lemma {:induction false} SeqPrint(toks: seq<Token>, p: nat, s: StmtNode, q: nat)
    requires p <= |toks| && StmtPrint(toks, p) == Ok(s, q)
    ensures Seq(toks, p) == SeqLoop(toks, q, [s])
  {
    StmtOfPrint(toks, p, s, q);
  }

  /** The `stmtSequence` loop stops at a token that starts no statement. */
  lemma {:induction false} SeqLoopStops(toks: seq<Token>, p: nat, chain: seq<StmtNode>)
    requires p <= |toks| && !StartsStatement(Peek(toks, p))
    ensures SeqLoop(toks, p, chain) == Ok(chain, p)
  {
  }

  lemma {:induction false} ConsHead(prog: seq<StmtNode>)
    requires prog != []
    ensures [prog[0]] + prog[1..] == prog
  {
  }

  lemma {:induction false} AppendHead(chain: seq<StmtNode>, prog: seq<StmtNode>)
    requires prog != []
    ensures chain + [prog[0]] + prog[1..] == chain + prog
  {
    assert prog == [prog[0]] + prog[1..];
  }

  /** `stmtPrint`, applied from `p` again and again, reads the statements of
      `prog` in order and stops at `end`. */
  predicate PrintsFrom(toks: seq<Token>, p: nat, prog: seq<StmtNode>, end: nat)
    decreases |prog|
  {
    if prog == [] then p == end <= |toks|
    else
      p <= |toks| && StmtPrint(toks, p).Ok? && StmtPrint(toks, p).value == prog[0] &&
      PrintsFrom(toks, StmtPrint(toks, p).next, prog[1..], end)
  }

  /** The statements of a print-only text are read back one by one. */
  lemma {:induction false} PrintedPrints(toks: seq<Token>, p: nat, prog: seq<StmtNode>, end: nat)
    requires Printed(toks, p, prog, end)
    ensures PrintsFrom(toks, p, prog, end)
    decreases |prog|
  {
    if prog != [] {
      var m := p + |EmitStmt(prog[0])|;
      PrintedSplit(toks, p, prog, end);
      PrintedPrints(toks, m, prog[1..], end);
      PrintsStep(toks, p, prog, m, end);
    }
  }

  /** A statement read by `stmtPrint` in front of the rest. */
  lemma {:induction false} PrintsStep(toks: seq<Token>, p: nat, prog: seq<StmtNode>, m: nat, end: nat)
    requires p <= |toks| && prog != []
    requires StmtPrint(toks, p) == Ok(prog[0], m) && PrintsFrom(toks, m, prog[1..], end)
    ensures PrintsFrom(toks, p, prog, end)
  {
  }

  /** The first statement of a print-only text parses back to its node,
      and what follows it is again print-only text. */
  lemma {:induction false} PrintedSplit(toks: seq<Token>, p: nat, prog: seq<StmtNode>, end: nat)
    requires prog != [] && Printed(toks, p, prog, end)
    ensures StmtPrint(toks, p) == Ok(prog[0], p + |EmitStmt(prog[0])|)
    ensures Printed(toks, p + |EmitStmt(prog[0])|, prog[1..], end)
  {
    PrintEmit(toks, p, prog[0]);
  }

  /** Once the head exists, the loop appends each statement read by
      `stmtPrint`, in order, and stops at `end`, where no statement starts. */
  lemma {:induction false} SeqLoopEmit(toks: seq<Token>, p: nat, chain: seq<StmtNode>, prog: seq<StmtNode>, end: nat)
    requires chain != [] && PrintsFrom(toks, p, prog, end) && !StartsStatement(Peek(toks, end))
    ensures SeqLoop(toks, p, chain) == Ok(chain + prog, end)
    decreases |prog|
  {
    if prog == [] {
      SeqLoopStops(toks, p, chain);
      assert chain + [] == chain;
    } else {
      var m := StmtPrint(toks, p).next;
      SeqLoopEmit(toks, m, chain + [prog[0]], prog[1..], end);
      SeqLoopEmitStep(toks, p, chain, prog, m, end);
    }
  }

  /** The inductive step of SeqLoopEmit. */
  lemma {:induction false} SeqLoopEmitStep(toks: seq<Token>, p: nat, chain: seq<StmtNode>, prog: seq<StmtNode>, m: nat, end: nat)
    requires p <= |toks| && chain != [] && prog != []
    requires StmtPrint(toks, p) == Ok(prog[0], m)
    requires SeqLoop(toks, m, chain + [prog[0]]) == Ok(chain + [prog[0]] + prog[1..], end)
    ensures SeqLoop(toks, p, chain) == Ok(chain + prog, end)
  {
    SeqLoopPrint(toks, p, chain, prog[0], m);
    AppendHead(chain, prog);
  }

  /** `stmtSequence` over statements read by `stmtPrint` gives them back. */
  lemma {:induction false} SeqEmit(toks: seq<Token>, p: nat, prog: seq<StmtNode>, end: nat)
    requires PrintsFrom(toks, p, prog, end) && !StartsStatement(Peek(toks, end))
    ensures Seq(toks, p) == Ok(prog, end)
  {
    if prog == [] {
      SeqStops(toks, p);
    } else {
      var m := StmtPrint(toks, p).next;
      SeqLoopEmit(toks, m, [prog[0]], prog[1..], end);
      SeqEmitStep(toks, p, prog, m, end);
    }
  }

  /** `stmtSequence` at a token that starts no statement: the empty list. */
  lemma {:induction false} SeqStops(toks: seq<Token>, p: nat)
    requires p <= |toks| && !StartsStatement(Peek(toks, p))
    ensures Seq(toks, p) == Ok([], p)
  {
    SeqLoopStops(toks, p, []);
  }

  /** The inductive step of SeqEmit. */
  lemma {:induction false} SeqEmitStep(toks: seq<Token>, p: nat, prog: seq<StmtNode>, m: nat, end: nat)
    requires p <= |toks| && prog != []
    requires StmtPrint(toks, p) == Ok(prog[0], m)
    requires SeqLoop(toks, m, [prog[0]]) == Ok([prog[0]] + prog[1..], end)
    ensures Seq(toks, p) == Ok(prog, end)
  {
    SeqPrint(toks, p, prog[0], m);
    ConsHead(prog);
  }

  /** The whole-program round trip: the text of a print-only program,
      followed by end of input, parses back to that program. */
  lemma {:induction false} ProgramEmit(prog: seq<StmtNode>)
    requires PrintOnly(prog)
    ensures Program(EmitProgram(prog) + [Tok(TokEof)]) == Ok(prog, |EmitProgram(prog)| + 1)
  {
    var toks := EmitProgram(prog) + [Tok(TokEof)];
    var n := |EmitProgram(prog)|;
    EofAfter(prog);
    PrintedEmit(toks, 0, prog);
    PrintedPrints(toks, 0, prog, n);
    SeqEmit(toks, 0, prog, n);
    ProgramOf(toks, prog, n);
  }

  /** A text followed by end of input: the text stands at 0, end of input
      right after it. */
  lemma {:induction false} EofAfter(prog: seq<StmtNode>)
    ensures At(EmitProgram(prog) + [Tok(TokEof)], 0, EmitProgram(prog))
    ensures Peek(EmitProgram(prog) + [Tok(TokEof)], |EmitProgram(prog)|) == TokEof
  {
    var toks := EmitProgram(prog) + [Tok(TokEof)];
    assert toks[0..|EmitProgram(prog)|] == EmitProgram(prog);
  }

  /** `getProgramAST` once `stmtSequence` has stopped at end of input. */
  lemma {:induction false} ProgramOf(toks: seq<Token>, prog: seq<StmtNode>, n: nat)
    requires n < |toks| && Seq(toks, 0) == Ok(prog, n) && Peek(toks, n) == TokEof
    ensures Program(toks) == Ok(prog, n + 1)
  {
  }

  // ---------------------------------------------------------------------
  // Which statements survive in the list.
  // ---------------------------------------------------------------------

  /** The loop only ever appends: the chain it starts from is a prefix of the
      list it returns, and a chain that starts empty stays empty. */
  lemma {:induction false} SeqLoopKeepsChain(toks: seq<Token>, p: nat, chain: seq<StmtNode>)
    requires p <= |toks| && SeqLoop(toks, p, chain).Ok?
    ensures chain <= SeqLoop(toks, p, chain).value
    ensures chain == [] ==> SeqLoop(toks, p, chain).value == []
    decreases |toks| - p
  {
    if StartsStatement(Peek(toks, p)) {
      var st := Stmt(toks, p);
      var q := st.next;
      if st.value.Some? {
        SeqLoopKeepsChain(toks, q, chain + [st.value.value]);
      } else {
        SeqLoopKeepsChain(toks, q, chain);
      }
    }
  }

  /** A sequence whose first statement is not a print statement yields the
      empty list (the NULL head) whenever it parses at all. */
  lemma {:induction false} NonPrintHeadGivesEmptyList(toks: seq<Token>, p: nat)
    requires p <= |toks| && Peek(toks, p) != TokPrint && Seq(toks, p).Ok?
    ensures Seq(toks, p).value == []
  {
    var q := Stmt(toks, p).next;
    SeqLoopKeepsChain(toks, q, []);
  }

  /** A sequence whose first statement is a print statement starts with
      that statement's node. */
  lemma {:induction false} PrintHeadLeadsList(toks: seq<Token>, p: nat, s: StmtNode, q: nat)
    requires p <= |toks| && StmtPrint(toks, p) == Ok(s, q) && Seq(toks, p).Ok?
    ensures |Seq(toks, p).value| > 0 && Seq(toks, p).value[0] == s
  {
    StmtOfPrint(toks, p, s, q);
    SeqLoopKeepsChain(toks, q, [s]);
  }

  /** A statement that yields no node, then a print statement: the print is
      linked through the NULL head and the parse crashes there. */
  lemma {:induction false} NonPrintThenPrintCrashes(toks: seq<Token>, p: nat, q: nat, s: StmtNode, q2: nat)
    requires p <= |toks| && Stmt(toks, p) == Ok(None, q)
    requires StmtPrint(toks, q) == Ok(s, q2)
    ensures Seq(toks, p) == Fail(NullDeref(q2))
  {
    StmtOfPrint(toks, q, s, q2);
  }

  /** `var x = 1; print(x);`: the declaration leaves the head NULL, and the
      print statement after it is written through it. */
  lemma {:induction false} DeclarationThenPrintCrashes(x: int)
    ensures
      var toks := [Tok(TokVar), Token(TokId, x, ""), Tok(TokAssign), Token(TokInt, 1, ""), Tok(TokSemicolon),
                   Tok(TokPrint), Tok(TokLPar), Token(TokId, x, ""), Tok(TokRPar), Tok(TokSemicolon), Tok(TokEof)];
      Program(toks) == Fail(NullDeref(10))
  {
    var toks := [Tok(TokVar), Token(TokId, x, ""), Tok(TokAssign), Token(TokInt, 1, ""), Tok(TokSemicolon),
                 Tok(TokPrint), Tok(TokLPar), Token(TokId, x, ""), Tok(TokRPar), Tok(TokSemicolon), Tok(TokEof)];
    var s := WriteK(IdK(x));
    assert toks[3..4] == Emit(ConstK(1));
    StmtExpEmit(toks, 3, ConstK(1));
    assert StmtVar(toks, 0) == Ok((), 5);
    assert Stmt(toks, 0) == Ok(None, 5);
    assert toks[5..10] == EmitStmt(s);
    PrintEmit(toks, 5, s);
    NonPrintThenPrintCrashes(toks, 0, 5, s, 10);
  }

  // ---------------------------------------------------------------------
  // Whole programs.
  // ---------------------------------------------------------------------

  /** An empty token stream is the empty program. */
  lemma {:induction false} EmptyProgram()
    ensures Program([Tok(TokEof)]) == Ok([], 1)
  {
  }

  /** A program must be a statement sequence followed by end of input: a
      first token that starts no statement and is not the end is a syntax
      error at position 0. */
  lemma {:induction false} StrayFirstToken(toks: seq<Token>)
    requires !StartsStatement(Peek(toks, 0)) && Peek(toks, 0) != TokEof
    ensures Program(toks) == Fail(SyntaxError(0))
  {
    SeqLoopStops(toks, 0, []);
    assert Seq(toks, 0) == Ok([], 0);
  }
}
