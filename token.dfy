/** The token vocabulary shared by the lexers and the parser. */
module Tokens {
  import opened I64

  datatype Token =
    | Illegal
    | Eof
    // identifiers and literals
    | Ident(name: string)
    | Int(value: int64)
    // operators
    | Assign
    | Plus
    | Minus
    | Bang
    | Asterisk
    | Slash
    // conditions
    | While
    | LT
    | GT
    | LTEQ
    | GTEQ
    // delimiters
    | Comma
    | Semicolon
    | LParen
    | RParen
    | LBrace
    | RBrace
    | Dot
    // keywords
    | Function
    | Let
    | Const
    | True
    | False
    | If
    | Else
    | Break
    | Continue
    | Return
    | Equal
    | NotEqual
    | String(text: string)
    | Bool(flag: bool)
    | LBracket
    | RBracket
    | Colon
    | Blank
}
