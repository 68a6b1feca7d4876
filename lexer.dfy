/** The main scanner (shared/lexer/lexer.c) as a class whose methods update
    the cursor step by step, as the C functions update the global scanner.

    The C scanner walks a NUL-terminated buffer with two `char *` cursors; here
    the buffer is `src + ['\0']`, the cursors are the offsets `start` and
    `current`, and the source is required to hold no NUL, as the C scanner
    stops at the first one.  Each scanning method (trivia skipping, the
    literal scanners, ScanToken and the dispatch methods) is proved to do
    exactly what the matching function of module LexerSpec says; the cursor
    helpers carry contracts of their own. */
module Lexer {
  import opened Tokens
  import opened LexerSpec
  import Keywords

  class Scanner {
    const src: seq<char>
    var start: nat
    var current: nat
    var line: int

    ghost predicate Valid()
      reads this
    {
      '\0' !in src && start <= current <= |src| && line >= 1
    }

    /** initScanner: bind the scanner to a source, at its first character
        on line 1. */
    constructor (source: seq<char>)
      requires '\0' !in source
      ensures Valid() && src == source
      ensures start == 0 && current == 0 && line == 1
    {
      src := source;
      start := 0;
      current := 0;
      line := 1;
    }

    /** The buffer the C scanner walks: the source and its terminator. */
    function Buffer(): seq<char> {
      src + ['\0']
    }

    /** At end exactly when the cursor is on the terminator, which is the
        position just past the source. */
    function IsAtEnd(): (b: bool)
      reads this
      requires Valid()
      ensures b <==> current == |src|
    {
      Peek() == '\0'
    }

    function Peek(): (c: char)
      reads this
      requires Valid()
      ensures c == CharAt(src, current)
      ensures c == '\0' <==> current == |src|
    {
      Buffer()[current]
    }

    /** The character after the current one; at end it is the terminator
        itself, so the read never goes past the buffer. */
    function PeekNext(): (c: char)
      reads this
      requires Valid()
      ensures c == CharAt(src, current + 1)
    {
      if IsAtEnd() then '\0' else Buffer()[current + 1]
    }

    method Advance() returns (c: char)
      requires Valid()
      modifies this`current
      ensures Valid()
      ensures old(current) == |src| ==> c == '\0' && current == old(current)
      ensures old(current) < |src| ==> c == src[old(current)] && current == old(current) + 1
    {
      if IsAtEnd() {
        return '\0';
      }
      c := Buffer()[current];
      current := current + 1;
    }

    /** Consumes the next character only when it is `expected`. */
    method Match(expected: char) returns (matched: bool)
      requires Valid()
      modifies this`current
      ensures Valid()
      ensures matched <==> old(current) < |src| && src[old(current)] == expected
      ensures current == if matched then old(current) + 1 else old(current)
    {
      if IsAtEnd() {
        return false;
      }
      if Buffer()[current] != expected {
        return false;
      }
      current := current + 1;
      return true;
    }

    /** The comment branch of skipWhitespace: consumes the two slashes and
        the rest of the line, stopping in front of the line break. */
    method SkipLineComment()
      requires Valid() && StartsComment(src, current)
      modifies this`current
      ensures Valid() && current == CommentEnd(src, old(current))
    {
      var _ := Advance();
      var _ := Advance();
      while !IsAtEnd() && Peek() != '\n'
        invariant Valid() && old(current) + 2 <= current <= CommentEnd(src, old(current))
        invariant CommentEnd(src, current) == CommentEnd(src, old(current))
        decreases |src| - current
      {
        var _ := Advance();
      }
    }

    /** Skips whitespace and `//` comments, counting the line breaks. */
    method SkipWhitespace()
      requires Valid()
      modifies this`current, this`line
      ensures Valid()
      ensures current == TriviaEnd(src, old(current))
      ensures line == old(line) + LineBreaks(src, old(current), current)
    {
      ghost var c0, l0 := current, line;
      while true
        invariant Valid() && c0 <= current
        invariant TriviaEnd(src, current) == TriviaEnd(src, c0)
        invariant line == l0 + LineBreaks(src, c0, current)
        decreases |src| - current
      {
        var c := Peek();
        if c == ' ' || c == '\t' || c == '\r' {
          SkipBlank(src, c0, current);
          var _ := Advance();
        } else if c == '\n' {
          SkipBlank(src, c0, current);
          line := line + 1;
          var _ := Advance();
        } else if c == '/' {
          if PeekNext() == '/' {
            SkipComment(src, c0, current);
            SkipLineComment();
          } else {
            StopAtToken(src, current);
            return;
          }
        } else {
          StopAtToken(src, current);
          return;
        }
      }
    }

    /** A token covering exactly the text consumed since `start`, on the
        current line. */
    function CreateToken(kind: TokenKind): (t: Token)
      reads this
      requires Valid()
      ensures t == Span(kind, start, current - start, line)
    {
      Span(kind, start, current - start, line)
    }

    function ErrorToken(diagnostic: Diagnostic): Token
      reads this
    {
      Error(diagnostic, line)
    }

    /** The body of a character literal; the opening quote is consumed. */
    method IsCharLiteral() returns (t: Token)
      requires Valid()
      modifies this`current
      ensures Valid()
      ensures Outcome(t, start, current, line) ==
                Conclude(CharLiteral, start, ScanChar(src, old(current), line))
    {
      if Peek() == '\'' {
        return ErrorToken(EmptyCharLiteral);
      }
      if Peek() == '\\' {
        var _ := Advance();
        var escaped := Peek();
        if IsEscapable(escaped) {
          var _ := Advance();
        } else {
          return ErrorToken(InvalidCharEscape);
        }
      } else {
        var _ := Advance();
      }
      if Peek() != '\'' {
        return ErrorToken(CharTooLong);
      }
      var _ := Advance();
      return CreateToken(CharLiteral);
    }

    /** The body of a string literal; the opening quote is consumed. */
    method IsStringLiteral() returns (t: Token)
      requires Valid()
      modifies this`current, this`line
      ensures Valid()
      ensures Outcome(t, start, current, line) ==
                Conclude(StringLiteral, start, ScanString(src, old(current), old(line)))
    {
      while Peek() != '"' && !IsAtEnd()
        invariant Valid() && old(current) <= current
        invariant ScanString(src, current, line) == ScanString(src, old(current), old(line))
        decreases |src| - current
      {
        if Peek() == '\n' {
          line := line + 1;
        }
        if Peek() == '\\' {
          var _ := Advance();
          if IsAtEnd() {
            return ErrorToken(UnterminatedAfterEscape);
          }
          if IsEscapable(Peek()) {
            var _ := Advance();
          } else {
            return ErrorToken(InvalidEscape);
          }
        } else {
          var _ := Advance();
        }
      }
      if IsAtEnd() {
        return ErrorToken(UnterminatedString);
      }
      var _ := Advance();
      return CreateToken(StringLiteral);
    }

    /** The rest of a number literal; its first digit is consumed. */
    method IsNumberLiteral() returns (t: Token)
      requires Valid()
      modifies this`current
      ensures Valid()
      ensures current == ScanNumber(src, old(current)).1
      ensures t == Span(ScanNumber(src, old(current)).0, start, current - start, line)
    {
      var isFloat := false;
      SkipDigits();
      if Peek() == '.' && IsDigit(PeekNext()) {
        isFloat := true;
        var _ := Advance();
        SkipDigits();
      }
      return CreateToken(if isFloat then FloatLiteral else IntLiteral);
    }

    /** The digit loops of isNumberLiteral, before and after the point. */
    method SkipDigits()
      requires Valid()
      modifies this`current
      ensures Valid() && current == DigitsEnd(src, old(current))
    {
      while IsDigit(Peek())
        invariant Valid() && old(current) <= current
        invariant DigitsEnd(src, current) == DigitsEnd(src, old(current))
        decreases |src| - current
      {
        var _ := Advance();
      }
    }

    method IsIdentifier() returns (t: Token)
      requires Valid() && start < current
      modifies this`current
      ensures Valid()
      ensures current == IdentifierEnd(src, old(current))
      ensures t == Span(Keywords.IdentifierType(src[start..current]), start, current - start, line)
    {
      while IsAlpha(Peek()) || IsDigit(Peek())
        invariant Valid() && old(current) <= current
        invariant IdentifierEnd(src, current) == IdentifierEnd(src, old(current))
        decreases |src| - current
      {
        var _ := Advance();
      }
      return CreateToken(Keywords.IdentifierType(src[start..current]));
    }

    /** `createToken(match(second) ? two : one)`: the token that the first
        character, already consumed, starts, which is the two-character
        `two` when `second` follows. */
    method OneOrTwo(second: char, two: TokenKind, one: TokenKind) returns (t: Token)
      requires Valid() && current == start + 1 && second != '\0'
      modifies this`current
      ensures Valid()
      ensures Outcome(t, start, current, line) == Either(src, start, line, second, two, one)
    {
      var m := Match(second);
      return CreateToken(if m then two else one);
    }

    /** The next token: the scanner's single entry point. */
    method ScanToken() returns (t: Token)
      requires Valid()
      modifies this
      ensures Valid()
      ensures Outcome(t, start, current, line) == Scan(src, old(current), old(line))
    {
      SkipWhitespace();
      start := current;
      ScanIsNext(src, old(current), old(line), start, line);
      if IsAtEnd() {
        return CreateToken(Eof);
      }
      var c := Advance();
      t := DispatchToken(c);
    }

    /** The switch of scanToken on the token's first character `c`, which
        is consumed.  The one-character tokens are handled here; the
        operators that may take a second character, and the literals, go to
        the methods below, each of which handles a group of the cases. */
    method DispatchToken(c: char) returns (t: Token)
      requires Valid() && start < |src| && current == start + 1 && c == src[start]
      modifies this`current, this`line
      ensures Valid()
      ensures Outcome(t, start, current, line) == Dispatch(src, start, old(line))
    {
      match c
      case '(' => return CreateToken(LeftParen);
      case ')' => return CreateToken(RightParen);
      case '{' => return CreateToken(LeftBrace);
      case '}' => return CreateToken(RightBrace);
      case '[' => return CreateToken(LeftBracket);
      case ']' => return CreateToken(RightBracket);
      case ',' => return CreateToken(Comma);
      case ':' => return CreateToken(Colon);
      case ';' => return CreateToken(Semicolon);
      case '?' => return CreateToken(Question);
      case '^' => return CreateToken(BitXor);
      case '~' => return CreateToken(BitNot);
      case '.' | '+' | '*' | '/' | '%' | '=' | '!' | '&' | '|' => t := PairToken(c);
      case '-' | '<' | '>' => t := TripleToken(c);
      case _ => t := ScanLiteral(c);
    }

    /** The cases of the switch whose token is one character or that
        character followed by a fixed second one. */
    method PairToken(c: char) returns (t: Token)
      requires Valid() && start < |src| && current == start + 1 && c == src[start]
      requires c in {'.', '+', '*', '/', '%', '=', '!', '&', '|'}
      modifies this`current
      ensures Valid()
      ensures Outcome(t, start, current, line) == Dispatch(src, start, line)
    {
      match c
      case '.' => t := OneOrTwo('.', DotDot, Dot);
      case '+' => t := OneOrTwo('=', PlusEqual, Plus);
      case '*' => t := OneOrTwo('=', StarEqual, Star);
      case '/' => t := OneOrTwo('=', SlashEqual, Slash);
      case '%' => t := OneOrTwo('=', PercentEqual, Percent);
      case '=' => t := OneOrTwo('=', EqualEqual, Equal);
      case '!' => t := OneOrTwo('=', BangEqual, Bang);
      case '&' => t := OneOrTwo('&', And, BitAnd);
      case '|' => t := OneOrTwo('|', Or, BitOr);
    }

    /** The cases of the switch with three possible tokens: `-` (`->`,
        `-=`), `<` (`<<`, `<=`) and `>` (`>>`, `>=`). */
    method TripleToken(c: char) returns (t: Token)
      requires Valid() && start < |src| && current == start + 1 && c == src[start]
      requires c in {'-', '<', '>'}
      modifies this`current
      ensures Valid()
      ensures Outcome(t, start, current, line) == Dispatch(src, start, line)
    {
      match c
      case '-' =>
        var arrow := Match('>');
        if arrow {
          return CreateToken(Arrow);
        } else {
          t := OneOrTwo('=', MinusEqual, Minus);
        }
      case '<' =>
        var shift := Match('<');
        if shift {
          return CreateToken(LeftShift);
        } else {
          t := OneOrTwo('=', LessEqual, Less);
        }
      case '>' =>
        var shift := Match('>');
        if shift {
          return CreateToken(RightShift);
        } else {
          t := OneOrTwo('=', GreaterEqual, Greater);
        }
    }

    /** The literal and default arms of the switch in scanToken, whose first
        character `c` is consumed. */
    method ScanLiteral(c: char) returns (t: Token)
      requires Valid() && start < |src| && current == start + 1 && c == src[start]
      modifies this`current, this`line
      ensures Valid()
      ensures Outcome(t, start, current, line) == Literal(src, start, old(line))
    {
      if c == '\'' {
        t := IsCharLiteral();
      } else if c == '"' {
        t := IsStringLiteral();
      } else if IsDigit(c) {
        t := IsNumberLiteral();
      } else if IsAlpha(c) {
        t := IsIdentifier();
      } else {
        t := ErrorToken(UnexpectedCharacter);
      }
    }
  }
}
