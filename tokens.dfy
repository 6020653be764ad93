/** Tokens as the lexer hands them to the parser. The lexer itself is not part
    of this model: a token stream is an input. */
module Tokens {

  datatype TokenType =
    // Single-character punctuation.
    | LeftParen | RightParen | LeftBrace | RightBrace | Comma | Semicolon
    | Minus | Plus | Slash | Star
    // One- or two-character operators.
    | Bang | BangEqual | Equal | EqualEqual
    | Greater | GreaterEqual | Less | LessEqual
    // Literals.
    | Identifier(name: string) | String(text: string) | Number(value: real)
    // Keywords.
    | And | Else | False | Fun | If | Nil | Or | Print | Return | True | Var | While
    // Layout and end of input.
    | Newline | EOF

  /** A token: its kind and the source text it was scanned from. Line and
      column are diagnostics only and are not modelled. */
  datatype Token = Token(kind: TokenType, lexeme: string)
}
