/**
  The parser's input alphabet: the tokens, keywords and locations that the
  tokenizer hands to the parser. Scanning itself is not part of this model; a
  token stream is any sequence of `Scanned` entries, each either a token with
  its location or a lexical error with its location.
*/
module Tokens {

  /** A position in the SQL source text. */
  datatype Location = Location(line: nat, col: nat)

  /** The location a fresh parser starts with, before any token is consumed. */
  const DefaultLocation := Location(0, 0)

  /** Reserved words. `None` is the "no keyword" answer of the keyword helpers. */
  datatype Keyword =
    | Select | Create | Update | Delete | Insert | Into | Values | Set | Drop
    | From | Table | Database | Int | Varchar | Primary | Key | Unique | Where
    | And | Or
    | None

  datatype Token =
    | Keyword(keyword: Keyword)
    | Identifier(ident: string)
    | Number(digits: string)
    | String(text: string)
    | Plus | Minus | Mul | Div
    | Eq | Neq | Lt | LtEq | Gt | GtEq
    | Comma | SemiColon | LeftParen | RightParen
    | Whitespace(spaces: string)
    | Eof

  datatype TokenWithLocation = TokenWithLocation(token: Token, location: Location)

  /** A lexical error: what went wrong and where. */
  datatype TokenizerError = TokenizerError(message: string, location: Location)

  /** One entry of the tokenizer's output stream. */
  datatype Scanned =
    | Scanned(item: TokenWithLocation)
    | LexError(error: TokenizerError)

  predicate IsWhitespace(s: Scanned) {
    s.Scanned? && s.item.token.Whitespace?
  }
}
