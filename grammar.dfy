/** The grammar of parser.c as functions of the token sequence and a cursor.
    Each rule takes the cursor `p` (the position of the lookahead token) and
    returns the node it built with the cursor after it, or the failure that
    aborts the parse. Each `while` loop of the source is a tail-recursive
    `...Loop` function. These functions are the specification the methods of
    Parse.Parser are proved against. */
module Grammar {
  import opened Tokens
  import opened Ast

  /** Why a parse stops: a token mismatch (the source's syntaxeError, taken to
      abort the run) or the write through a NULL `auxNode` in stmtSequence. */
  datatype Failure = SyntaxError(at: nat) | NullDeref(at: nat)

  datatype PResult<+T> = Ok(value: T, next: nat) | Fail(failure: Failure)
  {
    predicate IsFailure() {
      Fail?
    }

    function PropagateFailure<U>(): PResult<U>
      requires Fail?
    {
      Fail(failure)
    }

    function Extract(): T
      requires Ok?
    {
      value
    }

    /** Where the cursor stands when the rule returns or aborts. */
    function End(): nat {
      if Ok? then next else failure.at
    }

    /** The same outcome with the built value replaced by `v`: how the source
        drops the result of a rule it calls only for its syntax check. */
    function Yield<U>(v: U): (r: PResult<U>)
      ensures r.Ok? <==> Ok?
      ensures r.Ok? ==> r.value == v && r.next == next
      ensures r.Fail? ==> r.failure == failure
    {
      if Ok? then Ok(v, next) else Fail(failure)
    }
  }

  /** A successful rule leaves the cursor at or after `p`, inside the input. */
  predicate Within<T>(toks: seq<Token>, p: nat, r: PResult<T>) {
    r.Ok? ==> p <= r.next <= |toks|
  }

  /** A successful rule consumed at least one token. */
  predicate Consumes<T>(toks: seq<Token>, p: nat, r: PResult<T>) {
    r.Ok? ==> p < r.next <= |toks|
  }

  /** `match`: the lookahead must be `k`; it is then consumed. */
  function Match(toks: seq<Token>, p: nat, k: Kind): (r: PResult<()>)
    ensures r.Ok? <==> Peek(toks, p) == k
    ensures r.Ok? ==> r.next == p + 1
    ensures r.Fail? ==> r.failure == SyntaxError(p)
    ensures k != TokEof ==> Consumes(toks, p, r)
  {
    if Peek(toks, p) == k then Ok((), p + 1) else Fail(SyntaxError(p))
  }

  // ---------------------------------------------------------------------
  // Expressions: factor < term < expArithmetic < stmtExp. Every call either
  // follows a consumed token or goes one layer down, hence the measure
  // (tokens left, layer).
  // ---------------------------------------------------------------------

  function Factor(toks: seq<Token>, p: nat): (r: PResult<Expr>)
    requires p <= |toks|
    ensures Consumes(toks, p, r)
    ensures r.Ok? ==> IsPrimary(r.value)
    decreases |toks| - p, 0
  {
    if Peek(toks, p) == TokInt then
      match Match(toks, p, TokInt)
      case Fail(f) => Fail(f)
      case Ok(_, q) => Ok(ConstK(toks[p].num), q)
    else if Peek(toks, p) == TokId then
      match Match(toks, p, TokId)
      case Fail(f) => Fail(f)
      case Ok(_, q) => Ok(IdK(toks[p].num), q)
    else if Peek(toks, p) == TokLPar then
      match Match(toks, p, TokLPar)
      case Fail(f) => Fail(f)
      case Ok(_, q) =>
      match StmtExp(toks, q)
      case Fail(f) => Fail(f)
      case Ok(_, q1) =>
      match Match(toks, q1, TokRPar)
      case Fail(f) => Fail(f)
      case Ok(_, q2) => Ok(NullExpr, q2)
    else
      Fail(SyntaxError(p))
  }

  /** The `while` loop of `term`, with the tree built so far. */
  function TermLoop(toks: seq<Token>, p: nat, left: Expr): (r: PResult<Expr>)
    requires p <= |toks|
    requires IsTermTree(left)
    ensures Within(toks, p, r)
    ensures r.Ok? ==> IsTermTree(r.value) && !IsMultiplicative(Peek(toks, r.next))
    decreases |toks| - p, 0
  {
    if !IsMultiplicative(Peek(toks, p)) then Ok(left, p)
    else
      var op := Peek(toks, p);
      match Match(toks, p, op)
      case Fail(f) => Fail(f)
      case Ok(_, q) =>
      match Factor(toks, q)
      case Fail(f) => Fail(f)
      case Ok(right, q1) => TermLoop(toks, q1, OpK(op, left, right))
  }

  function Term(toks: seq<Token>, p: nat): (r: PResult<Expr>)
    requires p <= |toks|
    ensures Consumes(toks, p, r)
    ensures r.Ok? ==> IsTermTree(r.value) && !IsMultiplicative(Peek(toks, r.next))
    decreases |toks| - p, 1
  {
    match Factor(toks, p)
    case Fail(f) => Fail(f)
    case Ok(left, q) => TermLoop(toks, q, left)
  }

  /** The `while` loop of `expArithmetic`, with the tree built so far. */
  function ArithLoop(toks: seq<Token>, p: nat, left: Expr): (r: PResult<Expr>)
    requires p <= |toks|
    requires IsArithTree(left)
    requires !IsMultiplicative(Peek(toks, p))
    ensures Within(toks, p, r)
    ensures r.Ok? ==> IsArithTree(r.value)
    ensures r.Ok? ==> !IsAdditive(Peek(toks, r.next)) && !IsMultiplicative(Peek(toks, r.next))
    decreases |toks| - p, 0
  {
    if !IsAdditive(Peek(toks, p)) then Ok(left, p)
    else
      var op := Peek(toks, p);
      match Match(toks, p, op)
      case Fail(f) => Fail(f)
      case Ok(_, q) =>
      match Term(toks, q)
      case Fail(f) => Fail(f)
      case Ok(right, q1) => ArithLoop(toks, q1, OpK(op, left, right))
  }

  function Arith(toks: seq<Token>, p: nat): (r: PResult<Expr>)
    requires p <= |toks|
    ensures Consumes(toks, p, r)
    ensures r.Ok? ==> IsArithTree(r.value)
    ensures r.Ok? ==> !IsAdditive(Peek(toks, r.next)) && !IsMultiplicative(Peek(toks, r.next))
    decreases |toks| - p, 2
  {
    match Term(toks, p)
    case Fail(f) => Fail(f)
    case Ok(left, q) => ArithLoop(toks, q, left)
  }

  /** `stmtExp`: one arithmetic expression, wrapped in a single relational
      node when a relational operator follows it. A second relational
      operator is left as the lookahead. */
  function StmtExp(toks: seq<Token>, p: nat): (r: PResult<Expr>)
    requires p <= |toks|
    ensures Consumes(toks, p, r)
    ensures r.Ok? ==> IsRelTree(r.value)
    ensures r.Ok? ==> !IsAdditive(Peek(toks, r.next)) && !IsMultiplicative(Peek(toks, r.next))
    ensures r.Ok? && IsRelational(Peek(toks, r.next)) ==> r.value.OpK? && IsRelational(r.value.op)
    decreases |toks| - p, 3
  {
    match Arith(toks, p)
    case Fail(f) => Fail(f)
    case Ok(left, q) =>
    if !IsRelational(Peek(toks, q)) then Ok(left, q)
    else
      var op := Peek(toks, q);
      match Match(toks, q, op)
      case Fail(f) => Fail(f)
      case Ok(_, q1) =>
      match Arith(toks, q1)
      case Fail(f) => Fail(f)
      case Ok(right, q2) => Ok(OpK(op, left, right), q2)
  }

  // ---------------------------------------------------------------------
  // Statements without nested blocks.
  // ---------------------------------------------------------------------

  /** The argument of `stmtPrint`: a string literal, or else an expression. */
  function PrintArg(toks: seq<Token>, p: nat): (r: PResult<Expr>)
    requires p <= |toks|
    ensures Consumes(toks, p, r)
    ensures r.Ok? ==> IsPrintArg(r.value)
    ensures r.Ok? && r.value.StringK? ==> r == Ok(StringK(toks[p].text), p + 1)
    ensures Peek(toks, p) == TokString ==> r == Ok(StringK(toks[p].text), p + 1)
    ensures Peek(toks, p) != TokString ==> r == StmtExp(toks, p)
  {
    if Peek(toks, p) == TokString then
      Match(toks, p, TokString).Yield(StringK(toks[p].text))
    else StmtExp(toks, p)
  }

  /** `stmtPrint`: print ( string-or-expression ) ; */
  function StmtPrint(toks: seq<Token>, p: nat): (r: PResult<StmtNode>)
    requires p <= |toks|
    ensures Consumes(toks, p, r)
    ensures r.Ok? ==> Peek(toks, p) == TokPrint && IsPrintArg(r.value.arg)
  {
    match Match(toks, p, TokPrint)
    case Fail(f) => Fail(f)
    case Ok(_, p1) =>
    match Match(toks, p1, TokLPar)
    case Fail(f) => Fail(f)
    case Ok(_, p2) =>
    match PrintArg(toks, p2)
    case Fail(f) => Fail(f)
    case Ok(e, q) =>
    match Match(toks, q, TokRPar)
    case Fail(f) => Fail(f)
    case Ok(_, q1) =>
    match Match(toks, q1, TokSemicolon)
    case Fail(f) => Fail(f)
    case Ok(_, q2) => Ok(WriteK(e), q2)
  }

  /** `stmtVar`: var id = expression ; */
  function StmtVar(toks: seq<Token>, p: nat): (r: PResult<()>)
    requires p <= |toks|
    ensures Consumes(toks, p, r)
    ensures r.Ok? ==> Peek(toks, p) == TokVar
  {
    match Match(toks, p, TokVar)
    case Fail(f) => Fail(f)
    case Ok(_, p1) =>
    match Match(toks, p1, TokId)
    case Fail(f) => Fail(f)
    case Ok(_, p2) =>
    match Match(toks, p2, TokAssign)
    case Fail(f) => Fail(f)
    case Ok(_, p3) =>
    match StmtExp(toks, p3)
    case Fail(f) => Fail(f)
    case Ok(_, q) => Match(toks, q, TokSemicolon)
  }

  /** The `while` loop of `argumentsList`: identifiers and literals, each
      followed by a comma unless `)` comes next. */
  function ArgumentsList(toks: seq<Token>, p: nat): (r: PResult<()>)
    requires p <= |toks|
    ensures Within(toks, p, r)
    ensures r.Ok? ==> Peek(toks, r.next) !in {TokId, TokInt, TokString}
    decreases |toks| - p
  {
    if Peek(toks, p) !in {TokId, TokInt, TokString} then Ok((), p)
    else
      match Match(toks, p, Peek(toks, p))
      case Fail(f) => Fail(f)
      case Ok(_, q) =>
      if Peek(toks, q) == TokRPar then ArgumentsList(toks, q)
      else
        match Match(toks, q, TokComma)
        case Fail(f) => Fail(f)
        case Ok(_, q1) => ArgumentsList(toks, q1)
  }

  /** The part of `stmtAssign` between the identifier and the `;`: an
      assignment, a call's argument list, or nothing at all. */
  function AssignTail(toks: seq<Token>, p: nat): (r: PResult<()>)
    requires p <= |toks|
    ensures Within(toks, p, r)
    ensures r.Ok? && r.next == p ==> Peek(toks, p) !in {TokAssign, TokLPar}
    ensures Peek(toks, p) !in {TokAssign, TokLPar} ==> r == Ok((), p)
  {
    if Peek(toks, p) == TokAssign then
      match Match(toks, p, TokAssign)
      case Fail(f) => Fail(f)
      case Ok(_, q) => StmtExp(toks, q).Yield(())
    else if Peek(toks, p) == TokLPar then
      match Match(toks, p, TokLPar)
      case Fail(f) => Fail(f)
      case Ok(_, q) =>
      match ArgumentsList(toks, q)
      case Fail(f) => Fail(f)
      case Ok(_, q1) => Match(toks, q1, TokRPar)
    else Ok((), p)
  }

  /** `stmtAssign`: id = expression ; or id ( arguments ) ; or id ; */
  function StmtAssign(toks: seq<Token>, p: nat): (r: PResult<()>)
    requires p <= |toks|
    ensures Consumes(toks, p, r)
    ensures r.Ok? ==> Peek(toks, p) == TokId
  {
    match Match(toks, p, TokId)
    case Fail(f) => Fail(f)
    case Ok(_, p1) =>
    match AssignTail(toks, p1)
    case Fail(f) => Fail(f)
    case Ok(_, q) => Match(toks, q, TokSemicolon)
  }

  /** The `while` loop of `paramList`: identifiers, each followed by a comma
      unless `)` comes next. */
  function ParamList(toks: seq<Token>, p: nat): (r: PResult<()>)
    requires p <= |toks|
    ensures Within(toks, p, r)
    ensures r.Ok? ==> Peek(toks, r.next) != TokId
    decreases |toks| - p
  {
    if Peek(toks, p) != TokId then Ok((), p)
    else
      match Match(toks, p, TokId)
      case Fail(f) => Fail(f)
      case Ok(_, q) =>
      if Peek(toks, q) == TokRPar then ParamList(toks, q)
      else
        match Match(toks, q, TokComma)
        case Fail(f) => Fail(f)
        case Ok(_, q1) => ParamList(toks, q1)
  }

  /** `loopIncrement`: id, then `++`, `--`, `= expression` or nothing. */
  function LoopIncrement(toks: seq<Token>, p: nat): (r: PResult<()>)
    requires p <= |toks|
    ensures Consumes(toks, p, r)
    ensures r.Ok? ==> Peek(toks, p) == TokId
  {
    match Match(toks, p, TokId)
    case Fail(f) => Fail(f)
    case Ok(_, q) =>
    if Peek(toks, q) == TokIncrement || Peek(toks, q) == TokDecrement then
      Match(toks, q, Peek(toks, q))
    else if Peek(toks, q) == TokAssign then
      match Match(toks, q, TokAssign)
      case Fail(f) => Fail(f)
      case Ok(_, q1) => StmtExp(toks, q1).Yield(())
    else Ok((), q)
  }

  // ---------------------------------------------------------------------
  // Statements with nested blocks, mutually recursive. The measure is
  // (tokens left, rank), the rank ordering the rules that call each other
  // without consuming a token first.
  // ---------------------------------------------------------------------

  /** `stmt`: dispatch on the lookahead. Only a print statement yields a node;
      an unrecognised lookahead yields no node and consumes nothing. */
  function Stmt(toks: seq<Token>, p: nat): (r: PResult<Option<StmtNode>>)
    requires p <= |toks|
    ensures Within(toks, p, r)
    ensures r.Ok? ==> (p < r.next <==> StartsStatement(Peek(toks, p)))
    ensures r.Ok? && r.value.Some? ==> Peek(toks, p) == TokPrint && IsPrintArg(r.value.value.arg)
    ensures !StartsStatement(Peek(toks, p)) ==> r == Ok(None, p)
    decreases |toks| - p, 1
  {
    match Peek(toks, p)
    case TokPrint =>
      (match StmtPrint(toks, p)
       case Fail(f) => Fail(f)
       case Ok(s, q) => Ok(Some(s), q))
    case TokFor => StmtLoop(toks, p).Yield(None)
    case TokIf => StmtIf(toks, p).Yield(None)
    case TokFun => StmtFunc(toks, p).Yield(None)
    case TokVar => StmtVar(toks, p).Yield(None)
    case TokId => StmtAssign(toks, p).Yield(None)
    case _ => Ok(None, p)
  }

  /** The `while` loop of `stmtSequence`. `chain` is the list linked so far
      from the head through `next`; it is empty exactly when the head (and so
      `auxNode`) is NULL, and then the next print statement is written
      through the NULL pointer. */
  function SeqLoop(toks: seq<Token>, p: nat, chain: seq<StmtNode>): (r: PResult<seq<StmtNode>>)
    requires p <= |toks|
    ensures Within(toks, p, r)
    ensures r.Ok? ==> !StartsStatement(Peek(toks, r.next))
    decreases |toks| - p, 2
  {
    if !StartsStatement(Peek(toks, p)) then Ok(chain, p)
    else
      match Stmt(toks, p)
      case Fail(f) => Fail(f)
      case Ok(None, q) => SeqLoop(toks, q, chain)
      case Ok(Some(s), q) =>
        if chain == [] then Fail(NullDeref(q)) else SeqLoop(toks, q, chain + [s])
  }

  /** `stmtSequence`: the list reachable from the first statement's node. */
  function Seq(toks: seq<Token>, p: nat): (r: PResult<seq<StmtNode>>)
    requires p <= |toks|
    ensures Within(toks, p, r)
    ensures r.Ok? ==> !StartsStatement(Peek(toks, r.next))
    decreases |toks| - p, 3
  {
    match Stmt(toks, p)
    case Fail(f) => Fail(f)
    case Ok(head, q) => SeqLoop(toks, q, if head.Some? then [head.value] else [])
  }

  /** The head of `stmtIf`: if ( expression ) */
  function IfHeader(toks: seq<Token>, p: nat): (r: PResult<()>)
    requires p <= |toks|
    ensures Consumes(toks, p, r)
    ensures r.Ok? ==> Peek(toks, p) == TokIf
  {
    match Match(toks, p, TokIf)
    case Fail(f) => Fail(f)
    case Ok(_, p1) =>
    match Match(toks, p1, TokLPar)
    case Fail(f) => Fail(f)
    case Ok(_, p2) =>
    match StmtExp(toks, p2)
    case Fail(f) => Fail(f)
    case Ok(_, p3) => Match(toks, p3, TokRPar)
  }

  /** A brace-delimited statement sequence, its nodes dropped. */
  function Block(toks: seq<Token>, p: nat): (r: PResult<()>)
    requires p <= |toks|
    ensures Consumes(toks, p, r)
    ensures r.Ok? ==> Peek(toks, p) == TokLBrace
    decreases |toks| - p, 0
  {
    match Match(toks, p, TokLBrace)
    case Fail(f) => Fail(f)
    case Ok(_, p1) =>
    match Seq(toks, p1)
    case Fail(f) => Fail(f)
    case Ok(_, p2) => Match(toks, p2, TokRBrace)
  }

  /** `stmtIf`: if ( expression ) { sequence } [ else { sequence } ] */
  function StmtIf(toks: seq<Token>, p: nat): (r: PResult<()>)
    requires p <= |toks|
    ensures Consumes(toks, p, r)
    ensures r.Ok? ==> Peek(toks, p) == TokIf
    decreases |toks| - p, 0
  {
    match IfHeader(toks, p)
    case Fail(f) => Fail(f)
    case Ok(_, p1) =>
    match Block(toks, p1)
    case Fail(f) => Fail(f)
    case Ok(_, q) =>
    if Peek(toks, q) != TokElse then Ok((), q)
    else
      match Match(toks, q, TokElse)
      case Fail(f) => Fail(f)
      case Ok(_, q1) => Block(toks, q1)
  }

  /** The `while` loop shared by `loopBody` and `funcBody`: print, if, var and
      identifier-led statements, their nodes dropped. */
  function BodyLoop(toks: seq<Token>, p: nat): (r: PResult<()>)
    requires p <= |toks|
    ensures Within(toks, p, r)
    ensures r.Ok? ==> !StartsBody(Peek(toks, r.next))
    decreases |toks| - p, 2
  {
    if !StartsBody(Peek(toks, p)) then Ok((), p)
    else
      var s :=
        if Peek(toks, p) == TokPrint then StmtPrint(toks, p).Yield(())
        else if Peek(toks, p) == TokIf then StmtIf(toks, p)
        else if Peek(toks, p) == TokVar then StmtVar(toks, p)
        else StmtAssign(toks, p);
      match s
      case Fail(f) => Fail(f)
      case Ok(_, q) => BodyLoop(toks, q)
  }

  /** The condition of `stmtLoop`: expression ; */
  function LoopCondition(toks: seq<Token>, p: nat): (r: PResult<()>)
    requires p <= |toks|
    ensures Consumes(toks, p, r)
    ensures r.Ok? ==> StmtExp(toks, p).Ok? && Peek(toks, r.next - 1) == TokSemicolon
  {
    match StmtExp(toks, p)
    case Fail(f) => Fail(f)
    case Ok(_, q) => Match(toks, q, TokSemicolon)
  }

  /** The controls of `stmtLoop`: var-declaration expression ; increment */
  function LoopControl(toks: seq<Token>, p: nat): (r: PResult<()>)
    requires p <= |toks|
    ensures Consumes(toks, p, r)
  {
    match StmtVar(toks, p)
    case Fail(f) => Fail(f)
    case Ok(_, p1) =>
    match LoopCondition(toks, p1)
    case Fail(f) => Fail(f)
    case Ok(_, p2) => LoopIncrement(toks, p2)
  }

  /** The head of `stmtLoop`: for ( controls ) */
  function LoopHeader(toks: seq<Token>, p: nat): (r: PResult<()>)
    requires p <= |toks|
    ensures Consumes(toks, p, r)
    ensures r.Ok? ==> Peek(toks, p) == TokFor
  {
    match Match(toks, p, TokFor)
    case Fail(f) => Fail(f)
    case Ok(_, p1) =>
    match Match(toks, p1, TokLPar)
    case Fail(f) => Fail(f)
    case Ok(_, p2) =>
    match LoopControl(toks, p2)
    case Fail(f) => Fail(f)
    case Ok(_, p3) => Match(toks, p3, TokRPar)
  }

  /** The block of `stmtLoop`: { body } */
  function LoopBlock(toks: seq<Token>, p: nat): (r: PResult<()>)
    requires p <= |toks|
    ensures Consumes(toks, p, r)
    ensures r.Ok? ==> Peek(toks, p) == TokLBrace
    decreases |toks| - p, 0
  {
    match Match(toks, p, TokLBrace)
    case Fail(f) => Fail(f)
    case Ok(_, p1) =>
    match BodyLoop(toks, p1)
    case Fail(f) => Fail(f)
    case Ok(_, p2) => Match(toks, p2, TokRBrace)
  }

  /** `stmtLoop`: the loop head, then its block */
  function StmtLoop(toks: seq<Token>, p: nat): (r: PResult<()>)
    requires p <= |toks|
    ensures Consumes(toks, p, r)
    ensures r.Ok? ==> Peek(toks, p) == TokFor
    decreases |toks| - p, 0
  {
    match LoopHeader(toks, p)
    case Fail(f) => Fail(f)
    case Ok(_, q) => LoopBlock(toks, q)
  }

  /** The end of `funcBody`: an optional `return string-or-expression ;`. */
  function FuncReturn(toks: seq<Token>, p: nat): (r: PResult<()>)
    requires p <= |toks|
    ensures Within(toks, p, r)
  {
    if Peek(toks, p) != TokReturn then Ok((), p)
    else
      match Match(toks, p, TokReturn)
      case Fail(f) => Fail(f)
      case Ok(_, q) =>
      var value :=
        if Peek(toks, q) == TokString then Match(toks, q, TokString)
        else StmtExp(toks, q).Yield(());
      match value
      case Fail(f) => Fail(f)
      case Ok(_, q1) => Match(toks, q1, TokSemicolon)
  }

  /** `funcBody`: body statements, then the optional return. */
  function FuncBody(toks: seq<Token>, p: nat): (r: PResult<()>)
    requires p <= |toks|
    ensures Within(toks, p, r)
    decreases |toks| - p, 3
  {
    match BodyLoop(toks, p)
    case Fail(f) => Fail(f)
    case Ok(_, q) => FuncReturn(toks, q)
  }

  /** The head of `stmtFunc`: fun id ( parameters ) */
  function FuncHeader(toks: seq<Token>, p: nat): (r: PResult<()>)
    requires p <= |toks|
    ensures Consumes(toks, p, r)
    ensures r.Ok? ==> Peek(toks, p) == TokFun
  {
    match Match(toks, p, TokFun)
    case Fail(f) => Fail(f)
    case Ok(_, p1) =>
    match Match(toks, p1, TokId)
    case Fail(f) => Fail(f)
    case Ok(_, p2) =>
    match Match(toks, p2, TokLPar)
    case Fail(f) => Fail(f)
    case Ok(_, p3) =>
    match ParamList(toks, p3)
    case Fail(f) => Fail(f)
    case Ok(_, p4) => Match(toks, p4, TokRPar)
  }

  /** The block of `stmtFunc`: { function body } */
  function FuncBlock(toks: seq<Token>, p: nat): (r: PResult<()>)
    requires p <= |toks|
    ensures Consumes(toks, p, r)
    ensures r.Ok? ==> Peek(toks, p) == TokLBrace
    decreases |toks| - p, 0
  {
    match Match(toks, p, TokLBrace)
    case Fail(f) => Fail(f)
    case Ok(_, p1) =>
    match FuncBody(toks, p1)
    case Fail(f) => Fail(f)
    case Ok(_, p2) => Match(toks, p2, TokRBrace)
  }

  /** `stmtFunc`: the function head, then its block */
  function StmtFunc(toks: seq<Token>, p: nat): (r: PResult<()>)
    requires p <= |toks|
    ensures Consumes(toks, p, r)
    ensures r.Ok? ==> Peek(toks, p) == TokFun
    decreases |toks| - p, 0
  {
    match FuncHeader(toks, p)
    case Fail(f) => Fail(f)
    case Ok(_, q) => FuncBlock(toks, q)
  }

  /** `getProgramAST`: one statement sequence from the first token, then end
      of input. */
  function Program(toks: seq<Token>): (r: PResult<seq<StmtNode>>)
    ensures r.Ok? ==> 0 < r.next && Peek(toks, r.next - 1) == TokEof
  {
    match Seq(toks, 0)
    case Fail(f) => Fail(f)
    case Ok(prog, q) =>
    match Match(toks, q, TokEof)
    case Fail(f) => Fail(f)
    case Ok(_, q1) => Ok(prog, q1)
  }
}
