/** The inverse direction of the grammar: the token text of a tree. Used as
    the reference the parse is checked against (parse after unparse gives the
    tree back). */
module Unparse {
  import opened Tokens
  import opened Ast

  /** A token without payload. */
  function Tok(k: Kind): Token {
    Token(k, 0, "")
  }

  /** The tokens of an expression tree, with no parentheses: the layered
      trees of Ast need none. NullExpr is written `( 0 )`, the shortest text
      for which `factor` yields NULL. */
  function Emit(e: Expr): (s: seq<Token>)
    ensures |s| >= 1
  {
    match e
    case NullExpr => [Tok(TokLPar), Token(TokInt, 0, ""), Tok(TokRPar)]
    case ConstK(v) => [Token(TokInt, v, "")]
    case IdK(n) => [Token(TokId, n, "")]
    case StringK(str) => [Token(TokString, 0, str)]
    case OpK(op, l, r) => Emit(l) + [Tok(op)] + Emit(r)
  }

  /** `print ( arg ) ;` */
  function EmitStmt(s: StmtNode): seq<Token> {
    [Tok(TokPrint), Tok(TokLPar)] + Emit(s.arg) + [Tok(TokRPar), Tok(TokSemicolon)]
  }

  function EmitProgram(prog: seq<StmtNode>): seq<Token> {
    if prog == [] then [] else EmitStmt(prog[0]) + EmitProgram(prog[1..])
  }

  /** The tokens `s` stand in `toks` from position `p` on. */
  predicate At(toks: seq<Token>, p: nat, s: seq<Token>) {
    p + |s| <= |toks| && toks[p..p + |s|] == s
  }

  lemma {:induction false} AtSplit(toks: seq<Token>, p: nat, a: seq<Token>, b: seq<Token>)
    requires At(toks, p, a + b)
    ensures At(toks, p, a) && At(toks, p + |a|, b)
  {
    var whole := toks[p..p + |a| + |b|];
    assert toks[p..p + |a|] == whole[..|a|];
    assert toks[p + |a|..p + |a| + |b|] == whole[|a|..];
  }

  /** The text of an operator node, split into its three parts. */
  lemma {:induction false} AtOperands(toks: seq<Token>, p: nat, e: Expr)
    requires e.OpK? && At(toks, p, Emit(e))
    ensures |Emit(e)| == |Emit(e.left)| + 1 + |Emit(e.right)|
    ensures At(toks, p, Emit(e.left))
    ensures At(toks, p + |Emit(e.left)|, [Tok(e.op)])
    ensures At(toks, p + |Emit(e.left)| + 1, Emit(e.right))
  {
    AtSplit(toks, p, Emit(e.left) + [Tok(e.op)], Emit(e.right));
    AtSplit(toks, p, Emit(e.left), [Tok(e.op)]);
  }

  /** The text of an operator node starts with its left operand's text,
      followed by the operator. */
  lemma {:induction false} AtLeft(toks: seq<Token>, p: nat, e: Expr)
    requires e.OpK? && At(toks, p, Emit(e))
    ensures At(toks, p, Emit(e.left)) && Peek(toks, p + |Emit(e.left)|) == e.op
  {
    AtOperands(toks, p, e);
    AtPeek(toks, p + |Emit(e.left)|, [Tok(e.op)]);
  }

  lemma {:induction false} AtIndex(toks: seq<Token>, p: nat, s: seq<Token>, i: nat)
    requires At(toks, p, s) && i < |s|
    ensures p + i < |toks| && Peek(toks, p + i) == s[i].kind
  {
    assert toks[p + i] == toks[p..p + |s|][i];
  }

  lemma {:induction false} AtPeek(toks: seq<Token>, p: nat, s: seq<Token>)
    requires At(toks, p, s) && |s| > 0
    ensures toks[p] == s[0] && Peek(toks, p) == s[0].kind
  {
    assert toks[p] == toks[p..p + |s|][0];
  }

  /** A layered tree's text starts with the first token of a factor, never
      with a string literal. */
  lemma {:induction false} EmitHead(e: Expr)
    requires IsRelTree(e)
    ensures Emit(e)[0].kind in {TokInt, TokId, TokLPar}
  {
    match e
    case OpK(op, l, r) =>
      if IsTermTree(e) {
        assert IsRelTree(l) by { assert IsTermTree(l); }
      } else if IsArithTree(e) {
        assert IsRelTree(l);
      } else {
        assert IsRelTree(l);
      }
      EmitHead(l);
      assert Emit(e)[0] == Emit(l)[0];
    case _ =>
  }
}
