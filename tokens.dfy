/** Lexical categories and the immutable token record (src/pylox/token.py). */
module Tokens {
  import opened Values

  datatype TokenType =
    // Single-character tokens.
    | LeftParen | RightParen | LeftBrace | RightBrace
    | Comma | Dot | Minus | Plus | Semicolon | Slash | Star
    // One or two character tokens.
    | Bang | BangEqual | Equal | EqualEqual
    | Greater | GreaterEqual | Less | LessEqual
    // Literals.
    | Identifier | String | Number
    // Keywords.
    | And | Class | Else | False | Fun | For | If | Nil | Or
    | Print | Return | Super | This | True | Var | While | Exit
    | Eof

  /** A token: its category, the exact source text, its literal payload (NilVal for none) and its line. */
  datatype Token = Token(tokenType: TokenType, lexeme: string, literal: Value, line: nat)
}
