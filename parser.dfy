/** parser.c as an object: the token sequence replaces the scanner, and the
    field `pos` is the cursor whose token is the source's `currentToken`.
    Every method changes nothing but `pos` and returns what the rule of the
    same name in module Grammar returns from the cursor it started at; on
    failure it returns at once, as the source's syntaxeError aborts the run. */
module Parse {
  import opened Tokens
  import opened Ast
  import opened Grammar

  class Parser {
    const toks: seq<Token>
    var pos: nat

    constructor (toks: seq<Token>)
      ensures this.toks == toks && pos == 0
    {
      this.toks := toks;
      pos := 0;
    }

    /** `currentToken`. */
    function Current(): Kind
      reads this
    {
      Peek(toks, pos)
    }

    method Match(k: Kind) returns (r: PResult<()>)
      modifies this
      ensures r == Grammar.Match(toks, old(pos), k) && pos == r.End()
    {
      if Current() != k {
        return Fail(SyntaxError(pos));
      }
      pos := pos + 1;
      return Ok((), pos);
    }

    /** `getProgramAST`: prime the lookahead, parse one sequence, expect the
        end of input. */
    method GetProgramAST() returns (r: PResult<seq<StmtNode>>)
      modifies this
      ensures r == Grammar.Program(toks) && pos == r.End()
    {
      pos := 0;
      var program :- StmtSequence();
      var _ :- Match(TokEof);
      return Ok(program, pos);
    }

    /** `stmtSequence`. `chain` is the list reachable from `stmtNode`
        through `next`; its last element is `auxNode`, and it is empty when
        `stmtNode` is NULL. */
    method StmtSequence() returns (r: PResult<seq<StmtNode>>)
      requires pos <= |toks|
      modifies this
      ensures r == Grammar.Seq(toks, old(pos)) && pos == r.End()
      decreases |toks| - pos, 3
    {
      var stmtNode :- Stmt();
      var chain := if stmtNode.Some? then [stmtNode.value] else [];
      while StartsStatement(Current())
        invariant old(pos) <= pos <= |toks|
        invariant Grammar.SeqLoop(toks, pos, chain) == Grammar.Seq(toks, old(pos))
        decreases |toks| - pos
      {
        var nextStmt :- Stmt();
        if nextStmt.Some? {
          if chain == [] {
            // auxNode->next with auxNode == NULL
            return Fail(NullDeref(pos));
          }
          chain := chain + [nextStmt.value];
        }
      }
      return Ok(chain, pos);
    }

    /** `stmt`. */
    method Stmt() returns (r: PResult<Option<StmtNode>>)
      requires pos <= |toks|
      modifies this
      ensures r == Grammar.Stmt(toks, old(pos)) && pos == r.End()
      decreases |toks| - pos, 1
    {
      match Current() {
        case TokPrint =>
          var s :- StmtPrint();
          return Ok(Some(s), pos);
        case TokFor =>
          var _ :- StmtLoop();
        case TokIf =>
          var _ :- StmtIf();
        case TokFun =>
          var _ :- StmtFunc();
        case TokVar =>
          var _ :- StmtVar();
        case TokId =>
          var _ :- StmtAssign();
        case _ =>
      }
      return Ok(None, pos);
    }

    /** `paramList`. */
    method ParamList() returns (r: PResult<()>)
      requires pos <= |toks|
      modifies this
      ensures r == Grammar.ParamList(toks, old(pos)) && pos == r.End()
    {
      while Current() == TokId
        invariant old(pos) <= pos <= |toks|
        invariant Grammar.ParamList(toks, pos) == Grammar.ParamList(toks, old(pos))
        decreases |toks| - pos
      {
        var _ := Match(TokId);
        if Current() != TokRPar {
          var _ :- Match(TokComma);
        }
      }
      return Ok((), pos);
    }

    /** `loopIncrement`. */
    method LoopIncrement() returns (r: PResult<()>)
      requires pos <= |toks|
      modifies this
      ensures r == Grammar.LoopIncrement(toks, old(pos)) && pos == r.End()
    {
      var _ :- Match(TokId);
      if Current() == TokIncrement || Current() == TokDecrement {
        var _ := Match(Current());
      } else if Current() == TokAssign {
        var _ := Match(TokAssign);
        var _ :- StmtExp();
      }
      return Ok((), pos);
    }

    /** `loopBody`. */
    method LoopBody() returns (r: PResult<()>)
      requires pos <= |toks|
      modifies this
      ensures r == Grammar.BodyLoop(toks, old(pos)) && pos == r.End()
      decreases |toks| - pos, 2
    {
      while StartsBody(Current())
        invariant old(pos) <= pos <= |toks|
        invariant Grammar.BodyLoop(toks, pos) == Grammar.BodyLoop(toks, old(pos))
        decreases |toks| - pos
      {
        if Current() == TokPrint {
          var _ :- StmtPrint();
        } else if Current() == TokIf {
          var _ :- StmtIf();
        } else if Current() == TokVar {
          var _ :- StmtVar();
        } else {
          var _ :- StmtAssign();
        }
      }
      return Ok((), pos);
    }

    /** `stmtPrint`: the only rule whose node is kept. */
    method StmtPrint() returns (r: PResult<StmtNode>)
      requires pos <= |toks|
      modifies this
      ensures r == Grammar.StmtPrint(toks, old(pos)) && pos == r.End()
    {
      var _ :- Match(TokPrint);
      var _ :- Match(TokLPar);
      var arg: Expr;
      if Current() == TokString {
        arg := StringK(toks[pos].text);
        var _ := Match(TokString);
      } else {
        arg :- StmtExp();
      }
      var _ :- Match(TokRPar);
      var _ :- Match(TokSemicolon);
      return Ok(WriteK(arg), pos);
    }

    /** `stmtLoop`. */
    method StmtLoop() returns (r: PResult<()>)
      requires pos <= |toks|
      modifies this
      ensures r == Grammar.StmtLoop(toks, old(pos)) && pos == r.End()
      decreases |toks| - pos, 0
    {
      var _ :- Match(TokFor);
      var _ :- Match(TokLPar);
      var _ :- StmtVar();
      var _ :- StmtExp();
      var _ :- Match(TokSemicolon);
      var _ :- LoopIncrement();
      var _ :- Match(TokRPar);
      var _ :- Match(TokLBrace);
      var _ :- LoopBody();
      var _ :- Match(TokRBrace);
      return Ok((), pos);
    }

    /** `stmtIf`. */
    method StmtIf() returns (r: PResult<()>)
      requires pos <= |toks|
      modifies this
      ensures r == Grammar.StmtIf(toks, old(pos)) && pos == r.End()
      decreases |toks| - pos, 0
    {
      var _ :- Match(TokIf);
      var _ :- Match(TokLPar);
      var _ :- StmtExp();
      var _ :- Match(TokRPar);
      var _ :- Match(TokLBrace);
      var _ :- StmtSequence();
      var _ :- Match(TokRBrace);
      if Current() == TokElse {
        var _ := Match(TokElse);
        var _ :- Match(TokLBrace);
        var _ :- StmtSequence();
        var _ :- Match(TokRBrace);
      }
      return Ok((), pos);
    }

    /** `funcBody`. */
    method FuncBody() returns (r: PResult<()>)
      requires pos <= |toks|
      modifies this
      ensures r == Grammar.FuncBody(toks, old(pos)) && pos == r.End()
      decreases |toks| - pos, 3
    {
      while StartsBody(Current())
        invariant old(pos) <= pos <= |toks|
        invariant Grammar.BodyLoop(toks, pos) == Grammar.BodyLoop(toks, old(pos))
        decreases |toks| - pos
      {
        if Current() == TokPrint {
          var _ :- StmtPrint();
        } else if Current() == TokIf {
          var _ :- StmtIf();
        } else if Current() == TokVar {
          var _ :- StmtVar();
        } else {
          var _ :- StmtAssign();
        }
      }
      if Current() == TokReturn {
        var _ := Match(TokReturn);
        if Current() == TokString {
          var _ := Match(TokString);
        } else {
          var _ :- StmtExp();
        }
        var _ :- Match(TokSemicolon);
      }
      return Ok((), pos);
    }

    /** `stmtFunc`. */
    method StmtFunc() returns (r: PResult<()>)
      requires pos <= |toks|
      modifies this
      ensures r == Grammar.StmtFunc(toks, old(pos)) && pos == r.End()
      decreases |toks| - pos, 0
    {
      var _ :- Match(TokFun);
      var _ :- Match(TokId);
      var _ :- Match(TokLPar);
      var _ :- ParamList();
      var _ :- Match(TokRPar);
      var _ :- Match(TokLBrace);
      var _ :- FuncBody();
      var _ :- Match(TokRBrace);
      return Ok((), pos);
    }

    /** `argumentsList`. */
    method ArgumentsList() returns (r: PResult<()>)
      requires pos <= |toks|
      modifies this
      ensures r == Grammar.ArgumentsList(toks, old(pos)) && pos == r.End()
    {
      while Current() == TokId || Current() == TokInt || Current() == TokString
        invariant old(pos) <= pos <= |toks|
        invariant Grammar.ArgumentsList(toks, pos) == Grammar.ArgumentsList(toks, old(pos))
        decreases |toks| - pos
      {
        var _ := Match(Current());
        if Current() != TokRPar {
          var _ :- Match(TokComma);
        }
      }
      return Ok((), pos);
    }

    /** `stmtAssign`. */
    method StmtAssign() returns (r: PResult<()>)
      requires pos <= |toks|
      modifies this
      ensures r == Grammar.StmtAssign(toks, old(pos)) && pos == r.End()
    {
      var _ :- Match(TokId);
      if Current() == TokAssign {
        var _ := Match(TokAssign);
        var _ :- StmtExp();
      } else if Current() == TokLPar {
        var _ := Match(TokLPar);
        var _ :- ArgumentsList();
        var _ :- Match(TokRPar);
      }
      var _ :- Match(TokSemicolon);
      return Ok((), pos);
    }

    /** `stmtVar`. */
    method StmtVar() returns (r: PResult<()>)
      requires pos <= |toks|
      modifies this
      ensures r == Grammar.StmtVar(toks, old(pos)) && pos == r.End()
    {
      var _ :- Match(TokVar);
      var _ :- Match(TokId);
      var _ :- Match(TokAssign);
      var _ :- StmtExp();
      var _ :- Match(TokSemicolon);
      return Ok((), pos);
    }

    /** `isRelationalOperator`: whether the lookahead lies in the range
        TOK_EQUAL..TOK_GTE. */
    function IsRelationalOperator(): (b: bool)
      reads this
      ensures b <==> Current() in {TokEqual, TokNeq, TokLt, TokLte, TokGt, TokGte}
    {
      IsRelational(Current())
    }

    /** `stmtExp`. */
    method StmtExp() returns (r: PResult<Expr>)
      requires pos <= |toks|
      modifies this
      ensures r == Grammar.StmtExp(toks, old(pos)) && pos == r.End()
      decreases |toks| - pos, 3
    {
      var leftTree :- ExpArithmetic();
      if IsRelationalOperator() {
        var op := Current();
        var _ := Match(op);
        var rightTree :- ExpArithmetic();
        leftTree := OpK(op, leftTree, rightTree);
      }
      return Ok(leftTree, pos);
    }

    /** `expArithmetic`. */
    method ExpArithmetic() returns (r: PResult<Expr>)
      requires pos <= |toks|
      modifies this
      ensures r == Grammar.Arith(toks, old(pos)) && pos == r.End()
      decreases |toks| - pos, 2
    {
      var leftTree :- Term();
      while Current() == TokPlus || Current() == TokMinus
        invariant old(pos) < pos <= |toks|
        invariant IsArithTree(leftTree) && !IsMultiplicative(Current())
        invariant Grammar.ArithLoop(toks, pos, leftTree) == Grammar.Arith(toks, old(pos))
        decreases |toks| - pos
      {
        var op := Current();
        var _ := Match(op);
        var rightTree :- Term();
        leftTree := OpK(op, leftTree, rightTree);
      }
      return Ok(leftTree, pos);
    }

    /** `term`. */
    method Term() returns (r: PResult<Expr>)
      requires pos <= |toks|
      modifies this
      ensures r == Grammar.Term(toks, old(pos)) && pos == r.End()
      decreases |toks| - pos, 1
    {
      var leftTree :- Factor();
      while Current() == TokSlash || Current() == TokStars
        invariant old(pos) < pos <= |toks|
        invariant IsTermTree(leftTree)
        invariant Grammar.TermLoop(toks, pos, leftTree) == Grammar.Term(toks, old(pos))
        decreases |toks| - pos
      {
        var op := Current();
        var _ := Match(op);
        var rightTree :- Factor();
        leftTree := OpK(op, leftTree, rightTree);
      }
      return Ok(leftTree, pos);
    }

    /** `factor`: an int or identifier leaf, or a parenthesised expression
        whose tree is dropped (the result stays NULL). */
    method Factor() returns (r: PResult<Expr>)
      requires pos <= |toks|
      modifies this
      ensures r == Grammar.Factor(toks, old(pos)) && pos == r.End()
      decreases |toks| - pos, 0
    {
      var leaf := NullExpr;
      if Current() == TokInt {
        leaf := ConstK(toks[pos].num);
        var _ := Match(TokInt);
      } else if Current() == TokId {
        leaf := IdK(toks[pos].num);
        var _ := Match(TokId);
      } else if Current() == TokLPar {
        var _ := Match(TokLPar);
        var _ :- StmtExp();
        var _ :- Match(TokRPar);
      } else {
        return Fail(SyntaxError(pos));
      }
      return Ok(leaf, pos);
    }
  }
}
