/** What the expression rules promise: the cases of `factor`, that parsing
    the text of a layered tree gives that tree back (so `+ - * /` associate to
    the left and `*`, `/` bind tighter than `+`, `-`), that parentheses lose
    their contents, and that relational operators do not chain. */
module ExprFacts {
  import opened Tokens
  import opened Ast
  import opened Grammar
  import opened Unparse

  /** `factor` on a leaf token, and on a token that starts no factor. */
  lemma {:induction false} FactorLeaves(toks: seq<Token>, p: nat)
    requires p <= |toks|
    ensures Peek(toks, p) == TokInt ==> Factor(toks, p) == Ok(ConstK(toks[p].num), p + 1)
    ensures Peek(toks, p) == TokId ==> Factor(toks, p) == Ok(IdK(toks[p].num), p + 1)
    ensures Peek(toks, p) !in {TokInt, TokId, TokLPar} ==> Factor(toks, p) == Fail(SyntaxError(p))
  {
  }

  /** `( expression )` yields NULL whatever the expression: its tree is
      dropped. A missing `)` is a syntax error at the token in its place. */
  lemma {:induction false} ParenthesesDiscarded(toks: seq<Token>, p: nat)
    requires p <= |toks| && Peek(toks, p) == TokLPar
    ensures Factor(toks, p).Ok? ==> Factor(toks, p).value == NullExpr
    ensures StmtExp(toks, p + 1).Ok? ==>
      var q := StmtExp(toks, p + 1).next;
      Factor(toks, p) == if Peek(toks, q) == TokRPar then Ok(NullExpr, q + 1) else Fail(SyntaxError(q))
  {
  }

  /** `term` after its first factor. */
  lemma {:induction false} TermStart(toks: seq<Token>, p: nat, e: Expr, q: nat)
    requires p <= |toks| && Factor(toks, p) == Ok(e, q)
    ensures Term(toks, p) == TermLoop(toks, q, e)
  {
  }

  /** One turn of the `term` loop over a factor read from `p + 1`. */
  lemma {:induction false} TermStep(toks: seq<Token>, p: nat, left: Expr, right: Expr, q: nat)
    requires p < |toks| && IsTermTree(left) && IsMultiplicative(Peek(toks, p))
    requires Factor(toks, p + 1) == Ok(right, q)
    ensures TermLoop(toks, p, left) == TermLoop(toks, q, OpK(Peek(toks, p), left, right))
  {
  }

  /** The `term` loop stops at a token that is not `*` or `/`. */
  lemma {:induction false} TermLoopStops(toks: seq<Token>, p: nat, e: Expr)
    requires p <= |toks| && IsTermTree(e) && !IsMultiplicative(Peek(toks, p))
    ensures TermLoop(toks, p, e) == Ok(e, p)
  {
  }

  /** `expArithmetic` after its first term. */
  lemma {:induction false} ArithStart(toks: seq<Token>, p: nat, e: Expr, q: nat)
    requires p <= |toks| && Term(toks, p) == Ok(e, q)
    ensures Arith(toks, p) == ArithLoop(toks, q, e)
  {
  }

  /** One turn of the `expArithmetic` loop over a term read from `p + 1`. */
  lemma {:induction false} ArithStep(toks: seq<Token>, p: nat, left: Expr, right: Expr, q: nat)
    requires p < |toks| && IsArithTree(left) && IsAdditive(Peek(toks, p))
    requires Term(toks, p + 1) == Ok(right, q)
    ensures ArithLoop(toks, p, left) == ArithLoop(toks, q, OpK(Peek(toks, p), left, right))
  {
  }

  /** The `expArithmetic` loop stops at a token that is not `+` or `-`. */
  lemma {:induction false} ArithLoopStops(toks: seq<Token>, p: nat, e: Expr)
    requires p <= |toks| && IsArithTree(e)
    requires !IsMultiplicative(Peek(toks, p)) && !IsAdditive(Peek(toks, p))
    ensures ArithLoop(toks, p, e) == Ok(e, p)
  {
  }

  /** `stmtExp` when no relational operator follows the first operand. */
  lemma {:induction false} StmtExpPlain(toks: seq<Token>, p: nat, e: Expr, q: nat)
    requires p <= |toks| && Arith(toks, p) == Ok(e, q) && !IsRelational(Peek(toks, q))
    ensures StmtExp(toks, p) == Ok(e, q)
  {
  }

  /** `stmtExp` when a relational operator follows the first operand. */
  lemma {:induction false} RelationalStep(toks: seq<Token>, p: nat, left: Expr, m: nat, right: Expr, q: nat)
    requires p <= |toks| && m < |toks| && IsRelational(Peek(toks, m))
    requires Arith(toks, p) == Ok(left, m) && Arith(toks, m + 1) == Ok(right, q)
    ensures StmtExp(toks, p) == Ok(OpK(Peek(toks, m), left, right), q)
  {
  }

  /** A primary's text parses back to it. */
  lemma {:induction false} FactorEmit(toks: seq<Token>, p: nat, e: Expr)
    requires IsPrimary(e) && At(toks, p, Emit(e))
    ensures Factor(toks, p) == Ok(e, p + |Emit(e)|)
  {
    if e.NullExpr? {
      NullText(toks, p);
      NullEmit(toks, p);
    } else {
      AtPeek(toks, p, Emit(e));
      FactorLeaves(toks, p);
    }
  }

  /** The text `( 0 )` that stands for a NULL operand. */
  lemma {:induction false} NullText(toks: seq<Token>, p: nat)
    requires At(toks, p, Emit(NullExpr))
    ensures p + 2 < |toks| && Peek(toks, p) == TokLPar && Peek(toks, p + 2) == TokRPar
    ensures Peek(toks, p + 1) == TokInt && toks[p + 1].num == 0
  {
    AtSplit(toks, p, [Tok(TokLPar)], [Token(TokInt, 0, "")] + [Tok(TokRPar)]);
    AtSplit(toks, p + 1, [Token(TokInt, 0, "")], [Tok(TokRPar)]);
    AtPeek(toks, p, [Tok(TokLPar)]);
    AtPeek(toks, p + 1, [Token(TokInt, 0, "")]);
    AtPeek(toks, p + 2, [Tok(TokRPar)]);
  }

  /** `( 0 )` is read as a parenthesised expression, whose tree is dropped. */
  lemma {:induction false} NullEmit(toks: seq<Token>, p: nat)
    requires p + 2 < |toks| && Peek(toks, p) == TokLPar && Peek(toks, p + 2) == TokRPar
    requires Peek(toks, p + 1) == TokInt && toks[p + 1].num == 0
    ensures Factor(toks, p) == Ok(NullExpr, p + 3)
  {
    var zero := ConstK(0);
    FactorLeaves(toks, p + 1);
    TermStart(toks, p + 1, zero, p + 2);
    TermLoopStops(toks, p + 2, zero);
    ArithStart(toks, p + 1, zero, p + 2);
    ArithLoopStops(toks, p + 2, zero);
    StmtExpPlain(toks, p + 1, zero, p + 2);
    ParenthesesDiscarded(toks, p);
  }

  /** `term`, started at `p`, has read its way to `q` with `e` as the tree
      its loop has built so far. */
  predicate TermUpTo(toks: seq<Token>, p: nat, q: nat, e: Expr) {
    p <= |toks| && q <= |toks| && IsTermTree(e) && Term(toks, p) == TermLoop(toks, q, e)
  }

  /** `expArithmetic`, started at `p`, has read its way to `q` with `e` as
      the tree its loop has built so far. */
  predicate ArithUpTo(toks: seq<Token>, p: nat, q: nat, e: Expr) {
    p <= |toks| && q <= |toks| && IsArithTree(e) && !IsMultiplicative(Peek(toks, q)) &&
    Arith(toks, p) == ArithLoop(toks, q, e)
  }

  /** Reading the text of a term tree reaches the end of that text with the
      tree itself as the `term` loop's accumulated tree. */
  lemma {:induction false} TermEmit(toks: seq<Token>, p: nat, e: Expr)
    requires IsTermTree(e) && At(toks, p, Emit(e))
    ensures TermUpTo(toks, p, p + |Emit(e)|, e)
  {
    if IsPrimary(e) {
      PrimaryEmit(toks, p, e);
    } else {
      AtLeft(toks, p, e);
      TermEmit(toks, p, e.left);
      TermOpEmit(toks, p, e);
    }
  }

  /** The base case of TermEmit: a lone factor. */
  lemma {:induction false} PrimaryEmit(toks: seq<Token>, p: nat, e: Expr)
    requires IsPrimary(e) && At(toks, p, Emit(e))
    ensures TermUpTo(toks, p, p + |Emit(e)|, e)
  {
    FactorEmit(toks, p, e);
    TermStart(toks, p, e, p + |Emit(e)|);
  }

  /** The inductive step of TermEmit: one `* right` or `/ right` more. */
  lemma {:induction false} TermOpEmit(toks: seq<Token>, p: nat, e: Expr)
    requires IsTermTree(e) && !IsPrimary(e) && At(toks, p, Emit(e))
    requires TermUpTo(toks, p, p + |Emit(e.left)|, e.left)
    ensures TermUpTo(toks, p, p + |Emit(e)|, e)
  {
    AtOperands(toks, p, e);
    ProductEmit(toks, p, p + |Emit(e.left)|, e, p + |Emit(e)|);
  }

  /** From the end of the left operand's text, the `term` loop reads
      `op right` and extends the tree with one node. */
  lemma {:induction false} ProductEmit(toks: seq<Token>, p: nat, m: nat, e: Expr, end: nat)
    requires e.OpK? && IsMultiplicative(e.op) && IsTermTree(e.left) && IsPrimary(e.right)
    requires At(toks, m, [Tok(e.op)]) && At(toks, m + 1, Emit(e.right))
    requires end == m + 1 + |Emit(e.right)|
    requires TermUpTo(toks, p, m, e.left)
    ensures TermUpTo(toks, p, end, e)
  {
    AtPeek(toks, m, [Tok(e.op)]);
    FactorEmit(toks, m + 1, e.right);
    TermStep(toks, m, e.left, e.right, end);
  }

  /** The same one layer up, for arithmetic trees. */
  lemma {:induction false} ArithEmit(toks: seq<Token>, p: nat, e: Expr)
    requires IsArithTree(e) && At(toks, p, Emit(e))
    requires !IsMultiplicative(Peek(toks, p + |Emit(e)|))
    ensures ArithUpTo(toks, p, p + |Emit(e)|, e)
  {
    if IsTermTree(e) {
      ArithOfTerm(toks, p, e);
    } else {
      AtLeft(toks, p, e);
      ArithEmit(toks, p, e.left);
      ArithOpEmit(toks, p, e);
    }
  }

  /** The base case of ArithEmit: a term tree. */
  lemma {:induction false} ArithOfTerm(toks: seq<Token>, p: nat, e: Expr)
    requires IsTermTree(e) && At(toks, p, Emit(e))
    requires !IsMultiplicative(Peek(toks, p + |Emit(e)|))
    ensures ArithUpTo(toks, p, p + |Emit(e)|, e)
  {
    TermEmit(toks, p, e);
    TermLoopStops(toks, p + |Emit(e)|, e);
    ArithStart(toks, p, e, p + |Emit(e)|);
  }

  /** The inductive step of ArithEmit: one `+ right` or `- right` more. */
  lemma {:induction false} ArithOpEmit(toks: seq<Token>, p: nat, e: Expr)
    requires IsArithTree(e) && !IsTermTree(e) && At(toks, p, Emit(e))
    requires !IsMultiplicative(Peek(toks, p + |Emit(e)|))
    requires ArithUpTo(toks, p, p + |Emit(e.left)|, e.left)
    ensures ArithUpTo(toks, p, p + |Emit(e)|, e)
  {
    AtOperands(toks, p, e);
    SumEmit(toks, p, p + |Emit(e.left)|, e, p + |Emit(e)|);
  }

  /** From the end of the left operand's text, the `expArithmetic` loop reads
      `op right` and extends the tree with one node. */
  lemma {:induction false} SumEmit(toks: seq<Token>, p: nat, m: nat, e: Expr, end: nat)
    requires e.OpK? && IsAdditive(e.op) && IsArithTree(e.left) && IsTermTree(e.right)
    requires At(toks, m, [Tok(e.op)]) && At(toks, m + 1, Emit(e.right))
    requires end == m + 1 + |Emit(e.right)| && !IsMultiplicative(Peek(toks, end))
    requires ArithUpTo(toks, p, m, e.left)
    ensures ArithUpTo(toks, p, end, e)
  {
    AtPeek(toks, m, [Tok(e.op)]);
    TermEmit(toks, m + 1, e.right);
    TermLoopStops(toks, end, e.right);
    ArithStep(toks, m, e.left, e.right, end);
  }

  /** Parsing the text of a layered tree gives the tree back, provided the
      token after the text cannot continue it. */
  lemma {:induction false} StmtExpEmit(toks: seq<Token>, p: nat, e: Expr)
    requires IsRelTree(e) && At(toks, p, Emit(e))
    requires !IsAdditive(Peek(toks, p + |Emit(e)|)) && !IsMultiplicative(Peek(toks, p + |Emit(e)|))
    requires IsArithTree(e) ==> !IsRelational(Peek(toks, p + |Emit(e)|))
    ensures StmtExp(toks, p) == Ok(e, p + |Emit(e)|)
  {
    if IsArithTree(e) {
      PlainEmit(toks, p, e);
    } else {
      ComparisonEmit(toks, p, e);
    }
  }

  /** StmtExpEmit for an arithmetic tree. */
  lemma {:induction false} PlainEmit(toks: seq<Token>, p: nat, e: Expr)
    requires IsArithTree(e) && At(toks, p, Emit(e))
    requires !IsAdditive(Peek(toks, p + |Emit(e)|)) && !IsMultiplicative(Peek(toks, p + |Emit(e)|))
    requires !IsRelational(Peek(toks, p + |Emit(e)|))
    ensures StmtExp(toks, p) == Ok(e, p + |Emit(e)|)
  {
    ArithReads(toks, p, e, p + |Emit(e)|);
    StmtExpPlain(toks, p, e, p + |Emit(e)|);
  }

  /** `expArithmetic` reads an arithmetic tree's text and stops after it. */
  lemma {:induction false} ArithReads(toks: seq<Token>, p: nat, e: Expr, end: nat)
    requires IsArithTree(e) && At(toks, p, Emit(e)) && end == p + |Emit(e)|
    requires !IsAdditive(Peek(toks, end)) && !IsMultiplicative(Peek(toks, end))
    ensures Arith(toks, p) == Ok(e, end)
  {
    ArithEmit(toks, p, e);
    ArithLoopStops(toks, end, e);
  }

  /** StmtExpEmit for a comparison. */
  lemma {:induction false} ComparisonEmit(toks: seq<Token>, p: nat, e: Expr)
    requires IsRelTree(e) && !IsArithTree(e) && At(toks, p, Emit(e))
    requires !IsAdditive(Peek(toks, p + |Emit(e)|)) && !IsMultiplicative(Peek(toks, p + |Emit(e)|))
    ensures StmtExp(toks, p) == Ok(e, p + |Emit(e)|)
  {
    AtOperands(toks, p, e);
    ComparisonParts(toks, p, e, p + |Emit(e.left)|, p + |Emit(e)|);
  }

  /** Both operands of a comparison and the operator between them. */
  lemma {:induction false} ComparisonParts(toks: seq<Token>, p: nat, e: Expr, m: nat, end: nat)
    requires e.OpK? && IsRelational(e.op) && IsArithTree(e.left) && IsArithTree(e.right)
    requires At(toks, p, Emit(e.left)) && At(toks, m, [Tok(e.op)]) && At(toks, m + 1, Emit(e.right))
    requires m == p + |Emit(e.left)| && end == m + 1 + |Emit(e.right)|
    requires !IsAdditive(Peek(toks, end)) && !IsMultiplicative(Peek(toks, end))
    ensures StmtExp(toks, p) == Ok(e, end)
  {
    AtPeek(toks, m, [Tok(e.op)]);
    ArithReads(toks, p, e.left, m);
    ArithReads(toks, m + 1, e.right, end);
    RelationalStep(toks, p, e.left, m, e.right, end);
  }

  /** `1 - 2 - 3` parses as `(1 - 2) - 3`. */
  lemma {:induction false} SubtractionAssociatesLeft()
    ensures
      var toks := [Token(TokInt, 1, ""), Tok(TokMinus), Token(TokInt, 2, ""), Tok(TokMinus),
                   Token(TokInt, 3, ""), Tok(TokSemicolon)];
      StmtExp(toks, 0) == Ok(OpK(TokMinus, OpK(TokMinus, ConstK(1), ConstK(2)), ConstK(3)), 5)
  {
    var toks := [Token(TokInt, 1, ""), Tok(TokMinus), Token(TokInt, 2, ""), Tok(TokMinus),
                 Token(TokInt, 3, ""), Tok(TokSemicolon)];
    var e := OpK(TokMinus, OpK(TokMinus, ConstK(1), ConstK(2)), ConstK(3));
    assert toks[0..5] == Emit(e);
    StmtExpEmit(toks, 0, e);
  }

  /** `1 + 2 * 3` parses as `1 + (2 * 3)`. */
  lemma {:induction false} ProductBindsTighter()
    ensures
      var toks := [Token(TokInt, 1, ""), Tok(TokPlus), Token(TokInt, 2, ""), Tok(TokStars),
                   Token(TokInt, 3, ""), Tok(TokSemicolon)];
      StmtExp(toks, 0) == Ok(OpK(TokPlus, ConstK(1), OpK(TokStars, ConstK(2), ConstK(3))), 5)
  {
    var toks := [Token(TokInt, 1, ""), Tok(TokPlus), Token(TokInt, 2, ""), Tok(TokStars),
                 Token(TokInt, 3, ""), Tok(TokSemicolon)];
    var e := OpK(TokPlus, ConstK(1), OpK(TokStars, ConstK(2), ConstK(3)));
    assert toks[0..5] == Emit(e);
    StmtExpEmit(toks, 0, e);
  }

  /** `( inner )` read as a factor: the inner expression is parsed and the
      factor's tree is NULL. */
  lemma {:induction false} ParenthesisedFactor(toks: seq<Token>, p: nat, inner: Expr)
    requires IsRelTree(inner) && At(toks, p, [Tok(TokLPar)] + Emit(inner) + [Tok(TokRPar)])
    ensures Factor(toks, p) == Ok(NullExpr, p + |Emit(inner)| + 2)
  {
    var q := p + |Emit(inner)| + 1;
    AtSplit(toks, p, [Tok(TokLPar)] + Emit(inner), [Tok(TokRPar)]);
    AtSplit(toks, p, [Tok(TokLPar)], Emit(inner));
    AtPeek(toks, p, [Tok(TokLPar)]);
    AtPeek(toks, q, [Tok(TokRPar)]);
    StmtExpEmit(toks, p + 1, inner);
    ParenthesesDiscarded(toks, p);
  }

  /** `( inner ) * c` has root `*`, but its left child is NULL: the
      parenthesised expression is parsed and dropped. */
  lemma {:induction false} ParenthesisedOperandIsDropped(toks: seq<Token>, p: nat, inner: Expr, c: int)
    requires IsRelTree(inner)
    requires At(toks, p, [Tok(TokLPar)] + Emit(inner) + [Tok(TokRPar)] + [Tok(TokStars), Token(TokInt, c, "")])
    requires !IsAdditive(Peek(toks, p + |Emit(inner)| + 4)) && !IsMultiplicative(Peek(toks, p + |Emit(inner)| + 4)) && !IsRelational(Peek(toks, p + |Emit(inner)| + 4))
    ensures StmtExp(toks, p) == Ok(OpK(TokStars, NullExpr, ConstK(c)), p + |Emit(inner)| + 4)
  {
    AtSplit(toks, p, [Tok(TokLPar)] + Emit(inner) + [Tok(TokRPar)], [Tok(TokStars), Token(TokInt, c, "")]);
    ParenthesisedFactor(toks, p, inner);
    NullTimesConstant(toks, p, p + |Emit(inner)| + 2, c);
  }

  /** A NULL factor followed by `* c` gives `OpK(*, NullExpr, ConstK(c))`. */
  lemma {:induction false} NullTimesConstant(toks: seq<Token>, p: nat, q: nat, c: int)
    requires p <= |toks| && Factor(toks, p) == Ok(NullExpr, q)
    requires At(toks, q, [Tok(TokStars), Token(TokInt, c, "")])
    requires !IsAdditive(Peek(toks, q + 2)) && !IsMultiplicative(Peek(toks, q + 2)) && !IsRelational(Peek(toks, q + 2))
    ensures StmtExp(toks, p) == Ok(OpK(TokStars, NullExpr, ConstK(c)), q + 2)
  {
    var e := OpK(TokStars, NullExpr, ConstK(c));
    NullProduct(toks, p, q, c);
    ArithStart(toks, p, e, q + 2);
    ArithLoopStops(toks, q + 2, e);
    StmtExpPlain(toks, p, e, q + 2);
  }

  lemma {:induction false} NullProduct(toks: seq<Token>, p: nat, q: nat, c: int)
    requires p <= |toks| && Factor(toks, p) == Ok(NullExpr, q)
    requires At(toks, q, [Tok(TokStars), Token(TokInt, c, "")]) && !IsMultiplicative(Peek(toks, q + 2))
    ensures Term(toks, p) == Ok(OpK(TokStars, NullExpr, ConstK(c)), q + 2)
  {
    var e := OpK(TokStars, NullExpr, ConstK(c));
    AtSplit(toks, q, [Tok(TokStars)], [Token(TokInt, c, "")]);
    assert Emit(ConstK(c)) == [Token(TokInt, c, "")];
    TermStart(toks, p, NullExpr, q);
    ProductEmit(toks, p, q, e, q + 2);
    assert Term(toks, p) == TermLoop(toks, q + 2, e);
    TermLoopStops(toks, q + 2, e);
  }

  /** `(1 + 2) * 3` and `1 + 2 * 3` give different trees: the first has root
      `*` with a NULL left child. */
  lemma {:induction false} ParenthesisedSumIsDropped()
    ensures
      var toks := [Tok(TokLPar), Token(TokInt, 1, ""), Tok(TokPlus), Token(TokInt, 2, ""), Tok(TokRPar),
                   Tok(TokStars), Token(TokInt, 3, ""), Tok(TokSemicolon)];
      StmtExp(toks, 0) == Ok(OpK(TokStars, NullExpr, ConstK(3)), 7)
  {
    var toks := [Tok(TokLPar), Token(TokInt, 1, ""), Tok(TokPlus), Token(TokInt, 2, ""), Tok(TokRPar),
                 Tok(TokStars), Token(TokInt, 3, ""), Tok(TokSemicolon)];
    var sum := OpK(TokPlus, ConstK(1), ConstK(2));
    assert toks[0..7] == [Tok(TokLPar)] + Emit(sum) + [Tok(TokRPar)] + [Tok(TokStars), Token(TokInt, 3, "")];
    ParenthesisedOperandIsDropped(toks, 0, sum, 3);
  }

  /** In `a < b < c` the expression ends before the second `<`. */
  lemma {:induction false} RelationalDoesNotChain(a: int, b: int, c: int)
    ensures
      var toks := [Token(TokId, a, ""), Tok(TokLt), Token(TokId, b, ""), Tok(TokLt),
                   Token(TokId, c, ""), Tok(TokRPar)];
      StmtExp(toks, 0) == Ok(OpK(TokLt, IdK(a), IdK(b)), 3)
  {
    var toks := [Token(TokId, a, ""), Tok(TokLt), Token(TokId, b, ""), Tok(TokLt),
                 Token(TokId, c, ""), Tok(TokRPar)];
    var e := OpK(TokLt, IdK(a), IdK(b));
    assert toks[0..3] == Emit(e);
    StmtExpEmit(toks, 0, e);
  }
}
