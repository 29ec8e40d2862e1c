/** Round trips for the statements that build no node: the text of a
    declaration, a loop condition, a loop increment and an `if` head over
    any expression tree, and of a block of print statements, is read back
    whole by the matching rule; whole `if` and `for` statements written
    from these texts are accepted. */
module TextFacts {
  import opened Tokens
  import opened Ast
  import opened Grammar
  import opened Unparse
  import opened ExprFacts
  import opened StmtFacts
  import opened ClauseFacts
  import opened BodyFacts

  /** The text of `var x = e ;`. */
  function DeclarationText(x: int, e: Expr): seq<Token> {
    [Tok(TokVar), Token(TokId, x, ""), Tok(TokAssign)] + Emit(e) + [Tok(TokSemicolon)]
  }

  /** The text of `if ( e )`. */
  function IfHeadText(e: Expr): seq<Token> {
    [Tok(TokIf), Tok(TokLPar)] + Emit(e) + [Tok(TokRPar)]
  }

  /** The text of `{ prog }`. */
  function BraceText(prog: seq<StmtNode>): seq<Token> {
    [Tok(TokLBrace)] + EmitProgram(prog) + [Tok(TokRBrace)]
  }

  /** The text of the loop condition `c ;`. */
  function ConditionText(c: Expr): seq<Token> {
    Emit(c) + [Tok(TokSemicolon)]
  }

  /** The text of the loop increment `i = d`. */
  function IncrementText(i: int, d: Expr): seq<Token> {
    [Token(TokId, i, ""), Tok(TokAssign)] + Emit(d)
  }

  /** The text of the loop controls `var x = a ; c ; i = d`. */
  function ControlText(x: int, a: Expr, c: Expr, i: int, d: Expr): seq<Token> {
    DeclarationText(x, a) + ConditionText(c) + IncrementText(i, d)
  }

  /** The text of `for ( var x = a ; c ; i = d )`. */
  function LoopHeadText(x: int, a: Expr, c: Expr, i: int, d: Expr): seq<Token> {
    [Tok(TokFor), Tok(TokLPar)] + ControlText(x, a, c, i, d) + [Tok(TokRPar)]
  }

  /** The text of `if ( e ) { a } else { b }`. */
  function IfElseText(e: Expr, a: seq<StmtNode>, b: seq<StmtNode>): seq<Token> {
    IfHeadText(e) + BraceText(a) + [Tok(TokElse)] + BraceText(b)
  }

  // ---------------------------------------------------------------------
  // Declarations and if heads
  // ---------------------------------------------------------------------

  /** A text of fixed tokens, a middle part and one closing token, split
      into its parts. */
  lemma {:induction false} AroundParts(toks: seq<Token>, p: nat, head: seq<Token>, mid: seq<Token>, last: Token)
    requires At(toks, p, head + mid + [last])
    ensures At(toks, p, head) && At(toks, p + |head|, mid)
    ensures p + |head| + |mid| < |toks| && Peek(toks, p + |head| + |mid|) == last.kind
  {
    AtSplit(toks, p, head + mid, [last]);
    AtSplit(toks, p, head, mid);
    AtPeek(toks, p + |head| + |mid|, [last]);
  }

  /** `var x = e ;` is read whole by `stmtVar` for every expression tree
      `e` that `stmtExp` builds. */
  lemma {:induction false} DeclarationEmit(toks: seq<Token>, p: nat, x: int, e: Expr)
    requires IsRelTree(e) && At(toks, p, DeclarationText(x, e))
    ensures StmtVar(toks, p) == Ok((), p + |DeclarationText(x, e)|)
  {
    var head := [Tok(TokVar), Token(TokId, x, ""), Tok(TokAssign)];
    AroundParts(toks, p, head, Emit(e), Tok(TokSemicolon));
    AtIndex(toks, p, head, 0);
    AtIndex(toks, p, head, 1);
    AtIndex(toks, p, head, 2);
    StmtExpEmit(toks, p + 3, e);
    DeclarationStatement(toks, p, e, p + 3 + |Emit(e)|);
  }

  /** `if ( e )` is read whole by the if head for every expression tree
      `e` that `stmtExp` builds. */
  lemma {:induction false} IfHeadEmit(toks: seq<Token>, p: nat, e: Expr)
    requires IsRelTree(e) && At(toks, p, IfHeadText(e))
    ensures IfHeader(toks, p) == Ok((), p + |IfHeadText(e)|)
  {
    var head := [Tok(TokIf), Tok(TokLPar)];
    AroundParts(toks, p, head, Emit(e), Tok(TokRPar));
    AtIndex(toks, p, head, 0);
    AtIndex(toks, p, head, 1);
    StmtExpEmit(toks, p + 2, e);
    IfHeaderOf(toks, p, e, p + 2 + |Emit(e)|);
  }

  // ---------------------------------------------------------------------
  // Blocks of print statements
  // ---------------------------------------------------------------------

  /** The text of a block, split into its braces and its program, which
      ends at `m`. */
  lemma {:induction false} BraceParts(toks: seq<Token>, p: nat, prog: seq<StmtNode>, m: nat)
    requires At(toks, p, BraceText(prog)) && m == p + 1 + |EmitProgram(prog)|
    ensures p < |toks| && Peek(toks, p) == TokLBrace && At(toks, p + 1, EmitProgram(prog))
    ensures m < |toks| && Peek(toks, m) == TokRBrace
    ensures |BraceText(prog)| == m + 1 - p
  {
    AtSplit(toks, p, [Tok(TokLBrace)] + EmitProgram(prog), [Tok(TokRBrace)]);
    AtSplit(toks, p, [Tok(TokLBrace)], EmitProgram(prog));
    AtPeek(toks, p, [Tok(TokLBrace)]);
    AtPeek(toks, m, [Tok(TokRBrace)]);
  }

  /** The body loop reads the program of `{ prog }` up to its `}` at
      `m`. */
  lemma {:induction false} BodyOfBrace(toks: seq<Token>, p: nat, prog: seq<StmtNode>, m: nat)
    requires PrintOnly(prog) && At(toks, p, BraceText(prog)) && m == p + 1 + |EmitProgram(prog)|
    ensures p < |toks| && Peek(toks, p) == TokLBrace
    ensures BodyLoop(toks, p + 1) == Ok((), m) && m < |toks| && Peek(toks, m) == TokRBrace
    ensures |BraceText(prog)| == m + 1 - p
  {
    BraceParts(toks, p, prog, m);
    BodyEmit(toks, p + 1, prog);
  }

  /** `{ prog }` is a loop block for every print-only program. */
  lemma {:induction false} LoopBlockEmit(toks: seq<Token>, p: nat, prog: seq<StmtNode>)
    requires PrintOnly(prog) && At(toks, p, BraceText(prog))
    ensures LoopBlock(toks, p) == Ok((), p + |BraceText(prog)|)
  {
    var m := p + 1 + |EmitProgram(prog)|;
    BodyOfBrace(toks, p, prog, m);
    LoopBlockOf(toks, p, m);
  }

  /** `{ prog }` is a function block without a return for every print-only
      program. */
  lemma {:induction false} FuncBlockEmit(toks: seq<Token>, p: nat, prog: seq<StmtNode>)
    requires PrintOnly(prog) && At(toks, p, BraceText(prog))
    ensures FuncBlock(toks, p) == Ok((), p + |BraceText(prog)|)
  {
    var m := p + 1 + |EmitProgram(prog)|;
    BodyOfBrace(toks, p, prog, m);
    NoReturnHere(toks, m);
    FuncBlockOf(toks, p, m, m);
  }

  /** The text of any print-only program, followed by a token that starts
      no statement, is read back by `stmtSequence` as exactly that
      program. */
  lemma {:induction false} SeqOfEmitted(toks: seq<Token>, p: nat, prog: seq<StmtNode>)
    requires PrintOnly(prog) && At(toks, p, EmitProgram(prog))
    requires !StartsStatement(Peek(toks, p + |EmitProgram(prog)|))
    ensures Seq(toks, p) == Ok(prog, p + |EmitProgram(prog)|)
  {
    PrintedEmit(toks, p, prog);
    SeqOfPrinted(toks, p, prog, p + |EmitProgram(prog)|);
  }

  lemma {:induction false} SeqOfPrinted(toks: seq<Token>, p: nat, prog: seq<StmtNode>, end: nat)
    requires Printed(toks, p, prog, end) && !StartsStatement(Peek(toks, end))
    ensures Seq(toks, p) == Ok(prog, end)
  {
    PrintedPrints(toks, p, prog, end);
    SeqEmit(toks, p, prog, end);
  }

  /** `{ prog }` is an if block for every print-only program. */
  lemma {:induction false} BlockEmit(toks: seq<Token>, p: nat, prog: seq<StmtNode>)
    requires PrintOnly(prog) && At(toks, p, BraceText(prog))
    ensures Block(toks, p) == Ok((), p + |BraceText(prog)|)
  {
    var m := p + 1 + |EmitProgram(prog)|;
    BraceParts(toks, p, prog, m);
    SeqOfEmitted(toks, p + 1, prog);
    BlockOf(toks, p, prog, m);
  }

  // ---------------------------------------------------------------------
  // A whole if statement
  // ---------------------------------------------------------------------

  /** The text of an if statement with an else, split into its parts. */
  lemma {:induction false} IfElseParts(toks: seq<Token>, p: nat, e: Expr, a: seq<StmtNode>, b: seq<StmtNode>)
    requires At(toks, p, IfElseText(e, a, b))
    ensures At(toks, p, IfHeadText(e))
    ensures At(toks, p + |IfHeadText(e)|, BraceText(a))
    ensures Peek(toks, p + |IfHeadText(e)| + |BraceText(a)|) == TokElse
    ensures At(toks, p + |IfHeadText(e)| + |BraceText(a)| + 1, BraceText(b))
    ensures |IfElseText(e, a, b)| == |IfHeadText(e)| + |BraceText(a)| + 1 + |BraceText(b)|
  {
    var front := IfHeadText(e) + BraceText(a);
    AtSplit(toks, p, front + [Tok(TokElse)], BraceText(b));
    AtSplit(toks, p, front, [Tok(TokElse)]);
    AtSplit(toks, p, IfHeadText(e), BraceText(a));
    AtPeek(toks, p + |front|, [Tok(TokElse)]);
  }

  /** The head and the first block of `if ( e ) { a } else { b }`, which
      end at `m` and `n`. */
  lemma {:induction false} IfElseFront(toks: seq<Token>, p: nat, e: Expr, a: seq<StmtNode>, b: seq<StmtNode>, m: nat, n: nat)
    requires IsRelTree(e) && PrintOnly(a) && At(toks, p, IfElseText(e, a, b))
    requires m == p + |IfHeadText(e)| && n == m + |BraceText(a)|
    ensures p <= |toks| && IfHeader(toks, p) == Ok((), m) && Block(toks, m) == Ok((), n)
  {
    IfElseParts(toks, p, e, a, b);
    IfHeadEmit(toks, p, e);
    BlockEmit(toks, m, a);
  }

  /** The `else` at `n` and the second block of `if ( e ) { a } else { b }`,
      which ends at `c`. */
  lemma {:induction false} IfElseBack(toks: seq<Token>, p: nat, e: Expr, a: seq<StmtNode>, b: seq<StmtNode>, n: nat, c: nat)
    requires PrintOnly(b) && At(toks, p, IfElseText(e, a, b))
    requires n == p + |IfHeadText(e)| + |BraceText(a)| && c == p + |IfElseText(e, a, b)|
    ensures n < |toks| && Peek(toks, n) == TokElse && Block(toks, n + 1) == Ok((), c)
  {
    IfElseParts(toks, p, e, a, b);
    BlockEmit(toks, n + 1, b);
  }

  /** `if ( e ) { a } else { b }` is one if statement for every expression
      tree `e` and print-only programs `a` and `b`. */
  lemma {:induction false} IfElseEmit(toks: seq<Token>, p: nat, e: Expr, a: seq<StmtNode>, b: seq<StmtNode>)
    requires IsRelTree(e) && PrintOnly(a) && PrintOnly(b)
    requires At(toks, p, IfElseText(e, a, b))
    ensures StmtIf(toks, p) == Ok((), p + |IfElseText(e, a, b)|)
  {
    var m := p + |IfHeadText(e)|;
    var n := m + |BraceText(a)|;
    var c := p + |IfElseText(e, a, b)|;
    IfElseFront(toks, p, e, a, b, m, n);
    IfElseBack(toks, p, e, a, b, n, c);
    IfWithElse(toks, p, m, n, c);
  }

  // ---------------------------------------------------------------------
  // A whole loop statement
  // ---------------------------------------------------------------------

  /** `c ;` is a loop condition for every expression tree `c`. */
  lemma {:induction false} ConditionEmit(toks: seq<Token>, p: nat, c: Expr)
    requires IsRelTree(c) && At(toks, p, ConditionText(c))
    ensures LoopCondition(toks, p) == Ok((), p + |ConditionText(c)|)
  {
    AroundParts(toks, p, [], Emit(c), Tok(TokSemicolon));
    assert [] + Emit(c) + [Tok(TokSemicolon)] == ConditionText(c);
    StmtExpEmit(toks, p, c);
    LoopConditionOf(toks, p, c, p + |Emit(c)|);
  }

  /** `i = d` before a `)` is a loop increment for every expression tree
      `d`. */
  lemma {:induction false} IncrementEmit(toks: seq<Token>, p: nat, i: int, d: Expr)
    requires IsRelTree(d) && At(toks, p, IncrementText(i, d) + [Tok(TokRPar)])
    ensures LoopIncrement(toks, p) == Ok((), p + |IncrementText(i, d)|)
  {
    var head := [Token(TokId, i, ""), Tok(TokAssign)];
    AroundParts(toks, p, head, Emit(d), Tok(TokRPar));
    AtIndex(toks, p, head, 0);
    AtIndex(toks, p, head, 1);
    StmtExpEmit(toks, p + 2, d);
    LoopIncrementAssign(toks, p, d, p + 2 + |Emit(d)|);
  }

  /** The text of the loop controls before a `)`, split into its parts:
      the declaration ends at `a0` and the condition at `b0`. */
  lemma {:induction false} ControlParts(toks: seq<Token>, p: nat, x: int, a: Expr, c: Expr, i: int, d: Expr, a0: nat, b0: nat)
    requires At(toks, p, ControlText(x, a, c, i, d) + [Tok(TokRPar)])
    requires a0 == p + |DeclarationText(x, a)| && b0 == a0 + |ConditionText(c)|
    ensures At(toks, p, DeclarationText(x, a)) && At(toks, a0, ConditionText(c))
    ensures At(toks, b0, IncrementText(i, d) + [Tok(TokRPar)])
  {
    var front := DeclarationText(x, a) + ConditionText(c);
    assert ControlText(x, a, c, i, d) + [Tok(TokRPar)] == front + (IncrementText(i, d) + [Tok(TokRPar)]);
    AtSplit(toks, p, front, IncrementText(i, d) + [Tok(TokRPar)]);
    AtSplit(toks, p, DeclarationText(x, a), ConditionText(c));
  }

  /** A declaration, a condition and an increment in a row are the loop
      controls. */
  lemma {:induction false} ControlOf(toks: seq<Token>, p: nat, a0: nat, b0: nat, c0: nat)
    requires p <= |toks| && StmtVar(toks, p) == Ok((), a0)
    requires LoopCondition(toks, a0) == Ok((), b0) && LoopIncrement(toks, b0) == Ok((), c0)
    ensures LoopControl(toks, p) == Ok((), c0)
  {
  }

  /** `var x = a ; c ; i = d` before a `)` are loop controls for all
      expression trees `a`, `c` and `d`. */
  lemma {:induction false} ControlEmit(toks: seq<Token>, p: nat, x: int, a: Expr, c: Expr, i: int, d: Expr)
    requires IsRelTree(a) && IsRelTree(c) && IsRelTree(d)
    requires At(toks, p, ControlText(x, a, c, i, d) + [Tok(TokRPar)])
    ensures LoopControl(toks, p) == Ok((), p + |ControlText(x, a, c, i, d)|)
  {
    var a0 := p + |DeclarationText(x, a)|;
    var b0 := a0 + |ConditionText(c)|;
    var c0 := b0 + |IncrementText(i, d)|;
    ControlFront(toks, p, x, a, c, i, d, a0, b0);
    ControlBack(toks, p, i, d, a0, b0, c0);
  }

  /** A declaration ending at `a0`, a condition ending at `b0` and the text
      of the increment there, ending at `c0`, make the loop controls. */
  lemma {:induction false} ControlBack(toks: seq<Token>, p: nat, i: int, d: Expr, a0: nat, b0: nat, c0: nat)
    requires p <= a0 <= |toks| && StmtVar(toks, p) == Ok((), a0) && LoopCondition(toks, a0) == Ok((), b0)
    requires IsRelTree(d) && At(toks, b0, IncrementText(i, d) + [Tok(TokRPar)])
    requires c0 == b0 + |IncrementText(i, d)|
    ensures LoopControl(toks, p) == Ok((), c0)
  {
    IncrementEmit(toks, b0, i, d);
    ControlOf(toks, p, a0, b0, c0);
  }

  /** The declaration and the condition of the loop controls, which end at
      `a0` and `b0`. */
  lemma {:induction false} ControlFront(toks: seq<Token>, p: nat, x: int, a: Expr, c: Expr, i: int, d: Expr, a0: nat, b0: nat)
    requires IsRelTree(a) && IsRelTree(c)
    requires At(toks, p, ControlText(x, a, c, i, d) + [Tok(TokRPar)])
    requires a0 == p + |DeclarationText(x, a)| && b0 == a0 + |ConditionText(c)|
    ensures p <= a0 <= |toks| && StmtVar(toks, p) == Ok((), a0) && LoopCondition(toks, a0) == Ok((), b0)
    ensures At(toks, b0, IncrementText(i, d) + [Tok(TokRPar)])
  {
    ControlParts(toks, p, x, a, c, i, d, a0, b0);
    DeclarationEmit(toks, p, x, a);
    ConditionEmit(toks, a0, c);
  }

  /** The text of a loop head, split into `for (`, the controls and the
      `)`. */
  lemma {:induction false} LoopHeadParts(toks: seq<Token>, p: nat, x: int, a: Expr, c: Expr, i: int, d: Expr)
    requires At(toks, p, LoopHeadText(x, a, c, i, d))
    ensures p + 2 <= |toks| && Peek(toks, p) == TokFor && Peek(toks, p + 1) == TokLPar
    ensures At(toks, p + 2, ControlText(x, a, c, i, d) + [Tok(TokRPar)])
    ensures p + 2 + |ControlText(x, a, c, i, d)| < |toks|
    ensures Peek(toks, p + 2 + |ControlText(x, a, c, i, d)|) == TokRPar
  {
    var open := [Tok(TokFor), Tok(TokLPar)];
    var controls := ControlText(x, a, c, i, d);
    AroundParts(toks, p, open, controls, Tok(TokRPar));
    AtIndex(toks, p, open, 0);
    AtIndex(toks, p, open, 1);
    assert LoopHeadText(x, a, c, i, d) == open + (controls + [Tok(TokRPar)]);
    AtSplit(toks, p, open, controls + [Tok(TokRPar)]);
  }

  /** `for (`, the controls and `)` make a loop head. */
  lemma {:induction false} HeaderOf(toks: seq<Token>, p: nat, c0: nat)
    requires p + 2 <= |toks| && Peek(toks, p) == TokFor && Peek(toks, p + 1) == TokLPar
    requires LoopControl(toks, p + 2) == Ok((), c0) && Peek(toks, c0) == TokRPar
    ensures LoopHeader(toks, p) == Ok((), c0 + 1)
  {
  }

  /** `for ( var x = a ; c ; i = d )` is a loop head for all expression
      trees `a`, `c` and `d`. */
  lemma {:induction false} LoopHeadEmit(toks: seq<Token>, p: nat, x: int, a: Expr, c: Expr, i: int, d: Expr)
    requires IsRelTree(a) && IsRelTree(c) && IsRelTree(d)
    requires At(toks, p, LoopHeadText(x, a, c, i, d))
    ensures LoopHeader(toks, p) == Ok((), p + |LoopHeadText(x, a, c, i, d)|)
  {
    var c0 := p + 2 + |ControlText(x, a, c, i, d)|;
    LoopHeadParts(toks, p, x, a, c, i, d);
    ControlEmit(toks, p + 2, x, a, c, i, d);
    HeaderOf(toks, p, c0);
  }

  /** `for ( var x = a ; c ; i = d ) { prog }` is one loop statement for all
      expression trees `a`, `c` and `d` and every print-only program. */
  lemma {:induction false} LoopEmit(toks: seq<Token>, p: nat, x: int, a: Expr, c: Expr, i: int, d: Expr, prog: seq<StmtNode>)
    requires IsRelTree(a) && IsRelTree(c) && IsRelTree(d) && PrintOnly(prog)
    requires At(toks, p, LoopHeadText(x, a, c, i, d) + BraceText(prog))
    ensures StmtLoop(toks, p) == Ok((), p + |LoopHeadText(x, a, c, i, d)| + |BraceText(prog)|)
  {
    var m := p + |LoopHeadText(x, a, c, i, d)|;
    var n := m + |BraceText(prog)|;
    LoopFront(toks, p, x, a, c, i, d, prog, m);
    LoopBack(toks, p, prog, m, n);
  }

  /** A loop head ending at `m` and the text of `{ prog }` there, ending at
      `n`, make a loop statement. */
  lemma {:induction false} LoopBack(toks: seq<Token>, p: nat, prog: seq<StmtNode>, m: nat, n: nat)
    requires p <= |toks| && LoopHeader(toks, p) == Ok((), m)
    requires PrintOnly(prog) && At(toks, m, BraceText(prog)) && n == m + |BraceText(prog)|
    ensures StmtLoop(toks, p) == Ok((), n)
  {
    LoopBlockEmit(toks, m, prog);
    LoopOf(toks, p, m, n);
  }

  /** The head of `for ( var x = a ; c ; i = d ) { prog }`, which ends at
      `m`, where the block starts. */
  lemma {:induction false} LoopFront(toks: seq<Token>, p: nat, x: int, a: Expr, c: Expr, i: int, d: Expr, prog: seq<StmtNode>, m: nat)
    requires IsRelTree(a) && IsRelTree(c) && IsRelTree(d)
    requires At(toks, p, LoopHeadText(x, a, c, i, d) + BraceText(prog))
    requires m == p + |LoopHeadText(x, a, c, i, d)|
    ensures p <= |toks| && LoopHeader(toks, p) == Ok((), m) && At(toks, m, BraceText(prog))
  {
    AtSplit(toks, p, LoopHeadText(x, a, c, i, d), BraceText(prog));
    LoopHeadEmit(toks, p, x, a, c, i, d);
  }
}
