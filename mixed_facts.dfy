/** Statement sequences that mix print statements with statements that
    yield no node: `stmtSequence` keeps exactly the print nodes, in source
    order, when a print comes first, and crashes on the NULL head at the
    first print when it does not. */
module MixedFacts {
  import opened Tokens
  import opened Ast
  import opened Grammar
  import opened Unparse
  import opened StmtFacts
  import opened ClauseFacts

  /** The statements read by `stmt` from `p` yield `items`, one by one, and
      end at `end`. */
  predicate StmtsFrom(toks: seq<Token>, p: nat, items: seq<Option<StmtNode>>, end: nat)
    decreases |items|
  {
    if items == [] then p == end <= |toks|
    else
      p <= |toks| && StartsStatement(Peek(toks, p)) &&
      Stmt(toks, p).Ok? && Stmt(toks, p).value == items[0] &&
      StmtsFrom(toks, Stmt(toks, p).next, items[1..], end)
  }

  /** The nodes among `items`, in order. */
  function Nodes(items: seq<Option<StmtNode>>): seq<StmtNode>
    decreases |items|
  {
    if items == [] then []
    else (if items[0].Some? then [items[0].value] else []) + Nodes(items[1..])
  }

  /** No item yields a node. */
  predicate Silent(items: seq<Option<StmtNode>>) {
    forall i :: 0 <= i < |items| ==> items[i].None?
  }

  /** One turn of the `stmtSequence` loop over a statement that yields no
      node: nothing is linked. */
  lemma {:induction false} SeqLoopSkip(toks: seq<Token>, p: nat, chain: seq<StmtNode>, q: nat)
    requires p <= |toks| && StartsStatement(Peek(toks, p)) && Stmt(toks, p) == Ok(None, q)
    ensures SeqLoop(toks, p, chain) == SeqLoop(toks, q, chain)
  {
  }

  /** One turn of the `stmtSequence` loop over a print statement once the
      head exists: its node is linked at the end. */
  lemma {:induction false} SeqLoopLink(toks: seq<Token>, p: nat, chain: seq<StmtNode>, s: StmtNode, q: nat)
    requires p <= |toks| && chain != [] && StartsStatement(Peek(toks, p)) && Stmt(toks, p) == Ok(Some(s), q)
    ensures SeqLoop(toks, p, chain) == SeqLoop(toks, q, chain + [s])
  {
  }

  /** The first statement of a run, read once. */
  lemma {:induction false} StmtsHead(toks: seq<Token>, p: nat, items: seq<Option<StmtNode>>, end: nat)
    requires items != [] && StmtsFrom(toks, p, items, end)
    ensures p <= |toks| && StartsStatement(Peek(toks, p))
    ensures Stmt(toks, p) == Ok(items[0], Stmt(toks, p).next)
    ensures StmtsFrom(toks, Stmt(toks, p).next, items[1..], end)
  {
  }

  /** A run that reads nothing. */
  lemma {:induction false} StmtsNil(toks: seq<Token>, p: nat)
    requires p <= |toks|
    ensures StmtsFrom(toks, p, [], p)
  {
  }

  /** A run that reads one more statement first. */
  lemma {:induction false} StmtsCons(toks: seq<Token>, p: nat, v: Option<StmtNode>, q: nat, items: seq<Option<StmtNode>>, end: nat)
    requires p <= |toks| && StartsStatement(Peek(toks, p)) && Stmt(toks, p) == Ok(v, q)
    requires StmtsFrom(toks, q, items, end)
    ensures StmtsFrom(toks, p, [v] + items, end)
  {
    assert ([v] + items)[1..] == items;
  }

  /** A run that starts with the bare statement `id ;`, which yields no
      node. */
  lemma {:induction false} BareRun(toks: seq<Token>, p: nat, items: seq<Option<StmtNode>>, end: nat)
    requires p <= |toks| && Peek(toks, p) == TokId && Peek(toks, p + 1) == TokSemicolon
    requires StmtsFrom(toks, p + 2, items, end)
    ensures StmtsFrom(toks, p, [None] + items, end)
  {
    BareIdentifierStatement(toks, p);
    StmtsCons(toks, p, None, p + 2, items, end);
  }

  /** The loop step over a statement of the run that yields no node. */
  lemma {:induction false} ReadsSkip(toks: seq<Token>, p: nat, chain: seq<StmtNode>, items: seq<Option<StmtNode>>, q: nat, end: nat)
    requires items != [] && items[0].None? && p <= |toks| && StartsStatement(Peek(toks, p))
    requires Stmt(toks, p) == Ok(None, q)
    requires SeqLoop(toks, q, chain) == Ok(chain + Nodes(items[1..]), end)
    ensures SeqLoop(toks, p, chain) == Ok(chain + Nodes(items), end)
  {
    SeqLoopSkip(toks, p, chain, q);
    assert Nodes(items) == Nodes(items[1..]);
  }

  /** The loop step over a print statement of the run. */
  lemma {:induction false} ReadsLink(toks: seq<Token>, p: nat, chain: seq<StmtNode>, items: seq<Option<StmtNode>>, q: nat, end: nat)
    requires chain != [] && items != [] && items[0].Some? && p <= |toks| && StartsStatement(Peek(toks, p))
    requires Stmt(toks, p) == Ok(items[0], q)
    requires SeqLoop(toks, q, chain + [items[0].value]) == Ok(chain + [items[0].value] + Nodes(items[1..]), end)
    ensures SeqLoop(toks, p, chain) == Ok(chain + Nodes(items), end)
  {
    SeqLoopLink(toks, p, chain, items[0].value, q);
    NodesLink(chain, items);
  }

  lemma {:induction false} NodesLink(chain: seq<StmtNode>, items: seq<Option<StmtNode>>)
    requires items != [] && items[0].Some?
    ensures chain + [items[0].value] + Nodes(items[1..]) == chain + Nodes(items)
  {
    assert Nodes(items) == [items[0].value] + Nodes(items[1..]);
  }

  /** Once the head exists, the loop links the node of every print among the
      statements, in order, and skips the others. */
  lemma {:induction false} SeqLoopReads(toks: seq<Token>, p: nat, chain: seq<StmtNode>, items: seq<Option<StmtNode>>, end: nat)
    requires chain != [] && StmtsFrom(toks, p, items, end) && !StartsStatement(Peek(toks, end))
    ensures SeqLoop(toks, p, chain) == Ok(chain + Nodes(items), end)
    decreases |items|
  {
    if items == [] {
      SeqLoopStops(toks, p, chain);
      assert chain + [] == chain;
    } else {
      StmtsHead(toks, p, items, end);
      var q := Stmt(toks, p).next;
      if items[0].None? {
        SeqLoopReads(toks, q, chain, items[1..], end);
        ReadsSkip(toks, p, chain, items, q, end);
      } else {
        SeqLoopReads(toks, q, chain + [items[0].value], items[1..], end);
        ReadsLink(toks, p, chain, items, q, end);
      }
    }
  }

  /** A sequence led by a print statement yields exactly the print nodes
      among its statements, in source order. */
  lemma {:induction false} SeqReads(toks: seq<Token>, p: nat, items: seq<Option<StmtNode>>, end: nat)
    requires items != [] && items[0].Some?
    requires StmtsFrom(toks, p, items, end) && !StartsStatement(Peek(toks, end))
    ensures Seq(toks, p) == Ok(Nodes(items), end)
  {
    var s := items[0].value;
    var q := Stmt(toks, p).next;
    SeqLoopReads(toks, q, [s], items[1..], end);
    assert Nodes(items) == [s] + Nodes(items[1..]);
  }

  /** With the head still NULL, statements that yield no node are skipped
      and the first print after them is written through the NULL head. */
  lemma {:induction false} SeqLoopCrashes(toks: seq<Token>, p: nat, items: seq<Option<StmtNode>>, m: nat, s: StmtNode, q: nat)
    requires StmtsFrom(toks, p, items, m) && Silent(items) && m <= |toks|
    requires StmtPrint(toks, m) == Ok(s, q)
    ensures SeqLoop(toks, p, []) == Fail(NullDeref(q))
    decreases |items|
  {
    if items == [] {
      StmtOfPrint(toks, m, s, q);
    } else {
      var p1 := Stmt(toks, p).next;
      assert items[0].None?;
      SeqLoopSkip(toks, p, [], p1);
      assert Silent(items[1..]) by {
        forall i | 0 <= i < |items| - 1 ensures items[1..][i].None? {
          assert items[1..][i] == items[i + 1];
        }
      }
      SeqLoopCrashes(toks, p1, items[1..], m, s, q);
    }
  }

  /** A sequence whose first statements all yield no node crashes at the
      first print statement after them, however many there are. */
  lemma {:induction false} NonPrintRunThenPrintCrashes(toks: seq<Token>, p: nat, items: seq<Option<StmtNode>>, m: nat, s: StmtNode, q: nat)
    requires items != [] && StmtsFrom(toks, p, items, m) && Silent(items) && m <= |toks|
    requires StmtPrint(toks, m) == Ok(s, q)
    ensures Seq(toks, p) == Fail(NullDeref(q))
  {
    var p1 := Stmt(toks, p).next;
    assert items[0].None?;
    assert Seq(toks, p) == SeqLoop(toks, p1, []);
    assert Silent(items[1..]) by {
      forall i | 0 <= i < |items| - 1 ensures items[1..][i].None? {
        assert items[1..][i] == items[i + 1];
      }
    }
    SeqLoopCrashes(toks, p1, items[1..], m, s, q);
  }

  // ---------------------------------------------------------------------
  // Two programs.
  // ---------------------------------------------------------------------

  /** The tokens of `print ( 1 ) ; x ; print ( 2 ) ;` and the end of
      input. */
  function MixedText(x: int): seq<Token> {
    [Tok(TokPrint), Tok(TokLPar), Token(TokInt, 1, ""), Tok(TokRPar), Tok(TokSemicolon),
     Token(TokId, x, ""), Tok(TokSemicolon),
     Tok(TokPrint), Tok(TokLPar), Token(TokInt, 2, ""), Tok(TokRPar), Tok(TokSemicolon),
     Tok(TokEof)]
  }

  lemma {:induction false} MixedFirst(x: int)
    ensures Stmt(MixedText(x), 0) == Ok(Some(WriteK(ConstK(1))), 5)
  {
    var toks := MixedText(x);
    assert toks[0..5] == EmitStmt(WriteK(ConstK(1)));
    PrintEmit(toks, 0, WriteK(ConstK(1)));
    StmtOfPrint(toks, 0, WriteK(ConstK(1)), 5);
  }

  lemma {:induction false} MixedLast(x: int)
    ensures Stmt(MixedText(x), 7) == Ok(Some(WriteK(ConstK(2))), 12)
  {
    var toks := MixedText(x);
    assert toks[7..12] == EmitStmt(WriteK(ConstK(2)));
    PrintEmit(toks, 7, WriteK(ConstK(2)));
    StmtOfPrint(toks, 7, WriteK(ConstK(2)), 12);
  }

  lemma {:induction false} MixedLastRun(x: int)
    ensures StmtsFrom(MixedText(x), 7, [Some(WriteK(ConstK(2)))], 12)
  {
    var toks := MixedText(x);
    StmtsNil(toks, 12);
    MixedLast(x);
    StmtsCons(toks, 7, Some(WriteK(ConstK(2))), 12, [], 12);
  }

  lemma {:induction false} MixedBare(x: int)
    ensures 5 <= |MixedText(x)| && Peek(MixedText(x), 5) == TokId && Peek(MixedText(x), 6) == TokSemicolon
  {
  }

  lemma {:induction false} MixedTail(x: int)
    ensures StmtsFrom(MixedText(x), 5, [None, Some(WriteK(ConstK(2)))], 12)
  {
    MixedLastRun(x);
    MixedBare(x);
    BareRun(MixedText(x), 5, [Some(WriteK(ConstK(2)))], 12);
  }

  lemma {:induction false} MixedStatements(x: int)
    ensures StmtsFrom(MixedText(x), 0, [Some(WriteK(ConstK(1))), None, Some(WriteK(ConstK(2)))], 12)
  {
    MixedTail(x);
    MixedFirst(x);
    StmtsCons(MixedText(x), 0, Some(WriteK(ConstK(1))), 5, [None, Some(WriteK(ConstK(2)))], 12);
  }

  lemma {:induction false} MixedNodes()
    ensures Nodes([Some(WriteK(ConstK(1))), None, Some(WriteK(ConstK(2)))]) == [WriteK(ConstK(1)), WriteK(ConstK(2))]
  {
    var items := [Some(WriteK(ConstK(1))), None, Some(WriteK(ConstK(2)))];
    assert items[1..][1..][1..] == [];
    assert items[1..][1..] == [Some(WriteK(ConstK(2)))];
    assert items[1..] == [None, Some(WriteK(ConstK(2)))];
  }

  lemma {:induction false} MixedSequence(x: int)
    ensures Seq(MixedText(x), 0) == Ok([WriteK(ConstK(1)), WriteK(ConstK(2))], 12)
  {
    MixedStatements(x);
    MixedNodes();
    SeqReads(MixedText(x), 0, [Some(WriteK(ConstK(1))), None, Some(WriteK(ConstK(2)))], 12);
  }

  /** `print ( 1 ) ; x ; print ( 2 ) ;` is the program of the two print
      nodes: the bare `x ;` between them is parsed and dropped. */
  lemma {:induction false} PrintsAroundStatement(x: int)
    ensures Program(MixedText(x)) == Ok([WriteK(ConstK(1)), WriteK(ConstK(2))], 13)
  {
    MixedSequence(x);
    ProgramOf(MixedText(x), [WriteK(ConstK(1)), WriteK(ConstK(2))], 12);
  }

  /** The tokens of `x ; y ; print ( 1 ) ;` and the end of input. */
  function SilentText(x: int, y: int): seq<Token> {
    [Token(TokId, x, ""), Tok(TokSemicolon), Token(TokId, y, ""), Tok(TokSemicolon),
     Tok(TokPrint), Tok(TokLPar), Token(TokInt, 1, ""), Tok(TokRPar), Tok(TokSemicolon),
     Tok(TokEof)]
  }

  lemma {:induction false} SilentBare(x: int, y: int)
    ensures 4 <= |SilentText(x, y)|
    ensures Peek(SilentText(x, y), 0) == TokId && Peek(SilentText(x, y), 1) == TokSemicolon
    ensures Peek(SilentText(x, y), 2) == TokId && Peek(SilentText(x, y), 3) == TokSemicolon
  {
  }

  lemma {:induction false} SilentStatements(x: int, y: int)
    ensures StmtsFrom(SilentText(x, y), 0, [None, None], 4)
  {
    var toks := SilentText(x, y);
    SilentBare(x, y);
    StmtsNil(toks, 4);
    BareRun(toks, 2, [], 4);
    BareRun(toks, 0, [None], 4);
  }

  /** `x ; y ; print ( 1 ) ;` crashes on the NULL head at the print
      statement, after two statements that yield no node. */
  lemma {:induction false} TwoStatementsThenPrintCrash(x: int, y: int)
    ensures Program(SilentText(x, y)) == Fail(NullDeref(9))
  {
    var toks := SilentText(x, y);
    SilentStatements(x, y);
    assert toks[4..9] == EmitStmt(WriteK(ConstK(1)));
    PrintEmit(toks, 4, WriteK(ConstK(1)));
    NonPrintRunThenPrintCrashes(toks, 0, [None, None], 4, WriteK(ConstK(1)), 9);
  }
}
