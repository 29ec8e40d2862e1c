/** The tree the parser builds. A NULL child of the source is NullExpr; the
    statement list linked through `next` is a sequence in link order. */
module Ast {
  import opened Tokens

  /** Expression nodes: ConstK, IdK, StringK leaves and OpK binary nodes.
      IdK holds the identifier ordinal, not a name. OpK's op is the operator
      token's kind. */
  datatype Expr =
    | NullExpr
    | ConstK(val: int)
    | IdK(name: int)
    | StringK(str: string)
    | OpK(op: Kind, left: Expr, right: Expr)

  /** The one statement node the parser keeps: a write (print) statement with
      its single child. */
  datatype StmtNode = WriteK(arg: Expr)

  /** What `factor` can return. */
  predicate IsPrimary(e: Expr) {
    e.NullExpr? || e.ConstK? || e.IdK?
  }

  /** What `term` can return: a left spine of `*` and `/` nodes whose right
      children are primaries. */
  predicate IsTermTree(e: Expr) {
    IsPrimary(e) ||
    (e.OpK? && IsMultiplicative(e.op) && IsTermTree(e.left) && IsPrimary(e.right))
  }

  /** What `expArithmetic` can return: a left spine of `+` and `-` nodes over
      term trees. */
  predicate IsArithTree(e: Expr) {
    IsTermTree(e) ||
    (e.OpK? && IsAdditive(e.op) && IsArithTree(e.left) && IsTermTree(e.right))
  }

  /** What `stmtExp` can return: an arithmetic tree, or one relational node
      over two arithmetic trees. */
  predicate IsRelTree(e: Expr) {
    IsArithTree(e) ||
    (e.OpK? && IsRelational(e.op) && IsArithTree(e.left) && IsArithTree(e.right))
  }

  /** A node or NULL. */
  datatype Option<+T> = None | Some(value: T)

  /** A statement argument as `stmtPrint` builds it. */
  predicate IsPrintArg(e: Expr) {
    e.StringK? || IsRelTree(e)
  }
}
