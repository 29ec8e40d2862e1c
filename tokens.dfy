/** Token kinds and tokens as the scanner hands them to the parser.
    The scanner itself is not part of this model: a parse works on a finite
    sequence of tokens and a cursor into it. */
module Tokens {

  /** The token kinds the parser distinguishes. The relational kinds form the
      range TOK_EQUAL..TOK_GTE of the source; TokOther stands for every kind
      the grammar never names. */
  datatype Kind =
    | TokInt | TokString | TokId
    | TokPrint | TokFor | TokIf | TokElse | TokFun | TokVar | TokReturn
    | TokAssign
    | TokEqual | TokNeq | TokLt | TokLte | TokGt | TokGte
    | TokPlus | TokMinus | TokStars | TokSlash
    | TokIncrement | TokDecrement
    | TokLPar | TokRPar | TokLBrace | TokRBrace | TokComma | TokSemicolon
    | TokEof
    | TokOther

  /** A token: its kind and its payload. `num` is the value of an integer
      literal or the ordinal of an identifier; `text` is the value of a string
      literal. Other kinds leave both unused. */
  datatype Token = Token(kind: Kind, num: int, text: string)

  /** The range TOK_EQUAL..TOK_GTE: `==`, `!=`, `<`, `<=`, `>`, `>=`. */
  predicate IsRelational(k: Kind) {
    k in {TokEqual, TokNeq, TokLt, TokLte, TokGt, TokGte}
  }

  /** The operators `expArithmetic` loops over: `+` and `-`. */
  predicate IsAdditive(k: Kind) {
    k in {TokPlus, TokMinus}
  }

  /** The operators `term` loops over: `*` and `/`. */
  predicate IsMultiplicative(k: Kind) {
    k in {TokStars, TokSlash}
  }

  /** Kinds that keep a statement sequence going. */
  predicate StartsStatement(k: Kind) {
    k in {TokPrint, TokIf, TokFor, TokVar, TokId, TokFun}
  }

  /** Kinds that keep a loop body or a function body going. */
  predicate StartsBody(k: Kind) {
    k in {TokPrint, TokVar, TokId, TokIf}
  }

  /** The kind of the lookahead token at cursor `p`. Past the last token the
      scanner keeps reporting end of input. */
  function Peek(toks: seq<Token>, p: nat): Kind {
    if p < |toks| then toks[p].kind else TokEof
  }
}
