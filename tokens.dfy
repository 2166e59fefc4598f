/** The lexer's vocabulary: token kinds, tokens and lexical error kinds. */
module Tokens {
  import opened Java

  /** The kinds a token can have. There is no end-of-line kind. */
  datatype TokenType =
    | List | Dictionary | String | StringBegin | IntegerBegin | Integer
    | EndType | Separator | EOF

  /** The enum constant's name, as a message prints it. */
  function Name(t: TokenType): string
  {
    match t
    case List => "LIST"
    case Dictionary => "DICTIONARY"
    case String => "STRING"
    case StringBegin => "STRING_BEGIN"
    case IntegerBegin => "INTEGER_BEGIN"
    case Integer => "INTEGER"
    case EndType => "END_TYPE"
    case Separator => "SEPARATOR"
    case EOF => "EOF"
  }

  /** A token's payload: an int (a number, a length, the EOF line), the
      character the token was made from, or a string's text. */
  datatype TokenValue = IntValue(i: Int32) | CharValue(c: char) | StringValue(s: string)

  datatype Token = Token(tokenType: TokenType, nLine: int, pos: int, value: TokenValue)

  /** The lexical error kinds. */
  datatype ErrorType = UnknownChar | IncorrectNumber | IncorrectStringLength | NumberWithDeadZeros
}
