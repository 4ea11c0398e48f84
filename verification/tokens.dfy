/** The values the scanner hands to its caller. */
module Tokens {

  /** A missing value: the scanner's `null` end-of-stream marker is None. */
  datatype Option<T> = None | Some(value: T)

  /** The kind a symbol is interned with. Identifier, INTeger, StringLit and CharLit are
      the kinds the builders propose; Operator stands for whatever kind the symbol table
      holds for an operator or separator it already contains. */
  datatype Kind = Identifier | INTeger | StringLit | CharLit | Operator

  /** An interned lexeme: its text and its kind. */
  datatype Symbol = Symbol(text: string, kind: Kind)

  /** A token: start and end column, the symbol, and the line stamped when it was built. */
  datatype Token = Token(left: int, right: int, symbol: Symbol, line: nat)
}
