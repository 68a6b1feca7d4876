/** Token kinds, tokens and the fixed diagnostic messages of the scanner.

    The kind list is the one the two dispatchers actually produce: every
    punctuation and operator kind of the main scanner (the early scanner uses
    a subset of them), the four literal kinds, the 31 keywords, identifiers
    and end-of-input.  An error is not a kind here but its own token shape,
    because its lexeme is a diagnostic message rather than a slice of the
    source. */
module Tokens {

  datatype TokenKind =
    // punctuation
    | LeftParen | RightParen | LeftBrace | RightBrace | LeftBracket | RightBracket
    | Comma | Colon | Semicolon | Question | Dot | DotDot
    // operators
    | Plus | PlusEqual | Minus | MinusEqual | Arrow | Star | StarEqual
    | Slash | SlashEqual | Percent | PercentEqual | Equal | EqualEqual
    | Bang | BangEqual | Less | LessEqual | LeftShift | Greater | GreaterEqual
    | RightShift | BitAnd | And | BitOr | Or | BitXor | BitNot
    // literals
    | IntLiteral | FloatLiteral | StringLiteral | CharLiteral
    // keywords
    | Bool | Break | Char | Const | Continue | Do | Else | False | Fn | For
    | F32 | F64 | If | In | I8 | I16 | I32 | I64 | Loop | Match | Mut | Null
    | Return | String | True | U8 | U16 | U32 | U64 | Void | While
    // meta
    | Identifier | Eof

  /** A token is either a view of the source (offset and length into the
      scanned buffer) or an error carrying one of the static diagnostics. */
  datatype Token =
    | Span(kind: TokenKind, start: nat, length: nat, line: int)
    | Error(diagnostic: Diagnostic, line: int)

  predicate IsKeywordKind(k: TokenKind) {
    k in {Bool, Break, Char, Const, Continue, Do, Else, False, Fn, For,
          F32, F64, If, In, I8, I16, I32, I64, Loop, Match, Mut, Null,
          Return, String, True, U8, U16, U32, U64, Void, While}
  }

  /** The scanners' diagnostics; an error token's lexeme is the text. */
  datatype Diagnostic =
    | UnexpectedCharacter
    | EmptyCharLiteral
    | InvalidCharEscape
    | CharTooLong
    | UnterminatedAfterEscape
    | InvalidEscape
    | UnterminatedString
  {
    /** The message, spelled exactly as the scanners emit it. */
    function Text(): string {
      match this
      case UnexpectedCharacter => "Unexpected character."
      case EmptyCharLiteral => "Empty character literal."
      case InvalidCharEscape => "Invalid escape sequence in character literal."
      case CharTooLong => "Character literal must contain exactly one character."
      case UnterminatedAfterEscape => "Unterminated string after escape."
      case InvalidEscape => "Invalid escape sequence."
      case UnterminatedString => "Unterminated string"
    }
  }
}
