/** What one call of the main scanner guarantees, proved about the reference
    semantics `LexerSpec.Scan` (which `Lexer.Scanner.ScanToken` is proved to
    follow): operator maximal munch against an independent table, the shape
    of every literal's lexeme, line counting, trivia, end of input, and a few
    concrete inputs. */
module LexerProperties {
  import opened Tokens
  import opened LexerSpec
  import Keywords

  datatype Option<T> = None | Some(value: T)

  // ---------------------------------------------------------------------
  // Operators: a table of spellings and the longest match it allows.

  /** The operator or punctuation kind spelled by the single character c. */
  function OneCharOperator(c: char): (r: Option<TokenKind>)
    ensures r.Some? ==> Spelling(r.value) == [c]
  {
    match c
    case '(' => Some(LeftParen)
    case ')' => Some(RightParen)
    case '{' => Some(LeftBrace)
    case '}' => Some(RightBrace)
    case '[' => Some(LeftBracket)
    case ']' => Some(RightBracket)
    case ',' => Some(Comma)
    case ':' => Some(Colon)
    case ';' => Some(Semicolon)
    case '?' => Some(Question)
    case '.' => Some(Dot)
    case '+' => Some(Plus)
    case '*' => Some(Star)
    case '/' => Some(Slash)
    case '%' => Some(Percent)
    case '-' => Some(Minus)
    case '=' => Some(Equal)
    case '!' => Some(Bang)
    case '<' => Some(Less)
    case '>' => Some(Greater)
    case '&' => Some(BitAnd)
    case '|' => Some(BitOr)
    case '^' => Some(BitXor)
    case '~' => Some(BitNot)
    case _ => None
  }

  /** The operator kind spelled by the two characters c d, if any. */
  function TwoCharOperator(c: char, d: char): (r: Option<TokenKind>)
    ensures r.Some? ==> Spelling(r.value) == [c, d]
  {
    if c == '.' && d == '.' then Some(DotDot)
    else if c == '+' && d == '=' then Some(PlusEqual)
    else if c == '*' && d == '=' then Some(StarEqual)
    else if c == '/' && d == '=' then Some(SlashEqual)
    else if c == '%' && d == '=' then Some(PercentEqual)
    else if c == '-' && d == '>' then Some(Arrow)
    else if c == '-' && d == '=' then Some(MinusEqual)
    else if c == '=' && d == '=' then Some(EqualEqual)
    else if c == '!' && d == '=' then Some(BangEqual)
    else if c == '<' && d == '<' then Some(LeftShift)
    else if c == '<' && d == '=' then Some(LessEqual)
    else if c == '>' && d == '>' then Some(RightShift)
    else if c == '>' && d == '=' then Some(GreaterEqual)
    else if c == '&' && d == '&' then Some(And)
    else if c == '|' && d == '|' then Some(Or)
    else None
  }

  /** How each operator and punctuation kind is written (empty for the
      other kinds). */
  function Spelling(k: TokenKind): string {
    match k
    case LeftParen => "(" case RightParen => ")" case LeftBrace => "{"
    case RightBrace => "}" case LeftBracket => "[" case RightBracket => "]"
    case Comma => "," case Colon => ":" case Semicolon => ";" case Question => "?"
    case Dot => "." case DotDot => ".."
    case Plus => "+" case PlusEqual => "+=" case Minus => "-" case MinusEqual => "-="
    case Arrow => "->" case Star => "*" case StarEqual => "*="
    case Slash => "/" case SlashEqual => "/=" case Percent => "%" case PercentEqual => "%="
    case Equal => "=" case EqualEqual => "==" case Bang => "!" case BangEqual => "!="
    case Less => "<" case LessEqual => "<=" case LeftShift => "<<"
    case Greater => ">" case GreaterEqual => ">=" case RightShift => ">>"
    case BitAnd => "&" case And => "&&" case BitOr => "|" case Or => "||"
    case BitXor => "^" case BitNot => "~"
    case _ => ""
  }

  /** The outcome the table prescribes at s: the two-character operator when
      the next two characters spell one, else the one-character operator. */
  function Munch(src: seq<char>, s: nat, line: int): Outcome
    requires s < |src| && OneCharOperator(src[s]).Some?
  {
    match TwoCharOperator(src[s], CharAt(src, s + 1))
    case Some(k) => Double(k, s, line)
    case None => Single(OneCharOperator(src[s]).value, s, line)
  }

  /** Maximal munch: at an operator character the scanner takes the longest
      operator of the table that the input starts with. */
  lemma OperatorsMunchMaximally(src: seq<char>, s: nat, line: int)
    requires s < |src| && OneCharOperator(src[s]).Some?
    ensures Dispatch(src, s, line) == Munch(src, s, line)
  {
    if src[s] in {'-', '<', '>'} {
      MunchTriples(src, s, line);
    } else if src[s] in {'.', '+', '*', '/', '%', '=', '!', '&', '|'} {
      MunchPairs(src, s, line);
    } else if src[s] in {'(', ')', '{', '}', '[', ']'} {
      MunchBrackets(src, s, line);
    } else {
      MunchSingles(src, s, line);
    }
  }

  /** Brackets never take a second character. */
  lemma MunchBrackets(src: seq<char>, s: nat, line: int)
    requires s < |src| && src[s] in {'(', ')', '{', '}', '[', ']'}
    ensures Dispatch(src, s, line) == Munch(src, s, line)
  {
  }

  /** Nor do these punctuation characters and operators. */
  lemma MunchSingles(src: seq<char>, s: nat, line: int)
    requires s < |src| && src[s] in {',', ':', ';', '?', '^', '~'}
    ensures Dispatch(src, s, line) == Munch(src, s, line)
  {
  }

  /** The operators with one two-character form. */
  lemma MunchPairs(src: seq<char>, s: nat, line: int)
    requires s < |src| && src[s] in {'.', '+', '*', '/', '%', '=', '!', '&', '|'}
    ensures Dispatch(src, s, line) == Munch(src, s, line)
  {
  }

  /** The operators with two two-character forms. */
  lemma MunchTriples(src: seq<char>, s: nat, line: int)
    requires s < |src| && src[s] in {'-', '<', '>'}
    ensures Dispatch(src, s, line) == Munch(src, s, line)
  {
  }

  /** Every other character starts a literal, an identifier or an error. */
  lemma OthersAreLiterals(src: seq<char>, s: nat, line: int)
    requires s < |src| && OneCharOperator(src[s]).None?
    ensures Dispatch(src, s, line) == Literal(src, s, line)
  {
  }

  /** A character that starts no token: no operator, no literal, no
      identifier. */
  predicate StartsNothing(c: char) {
    OneCharOperator(c).None? && c != '\'' && c != '"' && !IsDigit(c) && !IsAlpha(c)
  }

  /** The fallback arm: a character that starts nothing is one
      unexpected-character error that consumes just that character, and
      that error comes from no other character. */
  lemma UnexpectedCharacters(src: seq<char>, s: nat, line: int)
    requires s < |src|
    ensures StartsNothing(src[s]) ==>
      Dispatch(src, s, line) == Outcome(Error(UnexpectedCharacter, line), s, s + 1, line)
    ensures Dispatch(src, s, line).token.Error? && Dispatch(src, s, line).token.diagnostic == UnexpectedCharacter ==>
      StartsNothing(src[s])
  {
    if OneCharOperator(src[s]).None? {
      OthersAreLiterals(src, s, line);
    } else {
      OperatorsMunchMaximally(src, s, line);
    }
  }

  /** An operator token's lexeme is the spelling of its kind. */
  lemma OperatorLexemeIsSpelling(src: seq<char>, s: nat, line: int)
    requires s < |src| && OneCharOperator(src[s]).Some?
    ensures var o := Dispatch(src, s, line);
      o.token.Span? && src[s..o.current] == Spelling(o.token.kind)
  {
    OperatorsMunchMaximally(src, s, line);
    var o := Dispatch(src, s, line);
    match TwoCharOperator(src[s], CharAt(src, s + 1))
    case Some(k) =>
      assert src[s..o.current] == [src[s], src[s + 1]];
    case None =>
      assert src[s..o.current] == [src[s]];
  }

  // ---------------------------------------------------------------------
  // Numbers: digits, optionally a '.' and more digits, as long as possible.

  predicate AllDigits(w: seq<char>) {
    forall k :: 0 <= k < |w| ==> IsDigit(w[k])
  }

  /** The lexeme of an integer literal. */
  predicate IsIntLexeme(w: seq<char>) {
    |w| >= 1 && AllDigits(w)
  }

  /** The lexeme of a float literal: a '.' with digits on both sides. */
  predicate IsFloatLexeme(w: seq<char>) {
    exists d :: 0 < d < |w| - 1 && w[d] == '.' && AllDigits(w[..d]) && AllDigits(w[d + 1..])
  }

  /** A number token's lexeme has the shape its kind says. */
  lemma NumberLexeme(src: seq<char>, s: nat, line: int)
    requires s < |src| && IsDigit(src[s])
    ensures var o := Literal(src, s, line);
      o.token.Span? && o.line == line &&
      (o.token.kind == IntLiteral || o.token.kind == FloatLiteral) &&
      (o.token.kind == IntLiteral ==> IsIntLexeme(src[s..o.current])) &&
      (o.token.kind == FloatLiteral ==> IsFloatLexeme(src[s..o.current]))
  {
    var o := Literal(src, s, line);
    if o.token.kind == FloatLiteral {
      FloatLexeme(src, s, line);
    } else {
      IntLexeme(src, s, line);
    }
  }

  lemma IntLexeme(src: seq<char>, s: nat, line: int)
    requires s < |src| && IsDigit(src[s]) && Literal(src, s, line).token.kind != FloatLiteral
    ensures var o := Literal(src, s, line); o.current == DigitsEnd(src, s + 1) && IsIntLexeme(src[s..o.current])
  {
  }

  lemma FloatLexeme(src: seq<char>, s: nat, line: int)
    requires s < |src| && IsDigit(src[s]) && Literal(src, s, line).token.kind == FloatLiteral
    ensures var o := Literal(src, s, line); IsFloatLexeme(src[s..o.current])
  {
    var o := Literal(src, s, line);
    var e := DigitsEnd(src, s + 1);
    assert CharAt(src, e) == '.' && IsDigit(CharAt(src, e + 1));
    var f := DigitsEnd(src, e + 1);
    assert o.current == f;
    var w := src[s..f];
    var d := e - s;
    var whole, fraction := w[..d], w[d + 1..];
    assert AllDigits(whole) by {
      forall k | 0 <= k < |whole| ensures IsDigit(whole[k]) {
        assert whole[k] == src[s + k];
      }
    }
    assert AllDigits(fraction) by {
      forall k | 0 <= k < |fraction| ensures IsDigit(fraction[k]) {
        assert fraction[k] == src[e + 1 + k];
      }
    }
    assert 0 < d < |w| - 1 && w[d] == '.';
  }

  /** Where the digits of a prefix w of a number end, a float's '.' must be. */
  lemma FloatDotIsAtDigitsEnd(w: seq<char>, m: nat)
    requires m < |w| && !IsDigit(w[m]) && AllDigits(w[..m]) && IsFloatLexeme(w)
    ensures w[m] == '.' && m + 1 < |w| && forall k :: m < k < |w| ==> IsDigit(w[k])
  {
    var d :| 0 < d < |w| - 1 && w[d] == '.' && AllDigits(w[..d]) && AllDigits(w[d + 1..]);
    assert d == m;
    forall k | m < k < |w| ensures IsDigit(w[k]) {
      assert w[d + 1..][k - d - 1] == w[k];
    }
  }

  /** No longer prefix of the input is a number: the scanner took the
      longest one. */
  lemma NumberIsLongest(src: seq<char>, s: nat, line: int, n: nat)
    requires s < |src| && IsDigit(src[s])
    requires Literal(src, s, line).current < n <= |src|
    ensures !IsIntLexeme(src[s..n]) && !IsFloatLexeme(src[s..n])
  {
    var o := Literal(src, s, line);
    var e := DigitsEnd(src, s + 1);
    var w := src[s..n];
    var m := e - s;
    assert w[m] == src[e];
    assert w[..m] == src[s..e];
    if o.token.kind == IntLiteral {
      assert o.current == e;
      if IsFloatLexeme(w) {
        FloatDotIsAtDigitsEnd(w, m);
      }
    } else {
      var e2 := o.current;
      assert w[e2 - s] == src[e2];
      if IsFloatLexeme(w) {
        FloatDotIsAtDigitsEnd(w, m);
      }
    }
  }

  // ---------------------------------------------------------------------
  // Strings: a quote, a body, a quote.

  /** A string literal's body: characters other than a quote or a
      backslash, and escapes of an escapable character. */
  predicate IsStringBody(w: seq<char>)
    decreases |w|
  {
    if |w| == 0 then true
    else if w[0] == '"' then false
    else if w[0] == '\\' then |w| >= 2 && IsEscapable(w[1]) && IsStringBody(w[2..])
    else IsStringBody(w[1..])
  }

  /** A string that scans successfully has a well-formed body. */
  lemma {:induction false} ScannedStringHasBody(src: seq<char>, i: nat, line: int)
    requires i <= |src| && ScanString(src, i, line).Done?
    ensures IsStringBody(src[i..ScanString(src, i, line).current - 1])
    decreases |src| - i
  {
    var r := ScanString(src, i, line);
    var w := src[i..r.current - 1];
    if src[i] == '"' {
    } else if src[i] == '\\' {
      ScannedStringHasBody(src, i + 2, line);
      assert w[2..] == src[i + 2..r.current - 1];
    } else {
      var l := if src[i] == '\n' then line + 1 else line;
      ScannedStringHasBody(src, i + 1, l);
      assert w[1..] == src[i + 1..r.current - 1];
    }
  }

  /** A well-formed body followed by a quote scans, and ends at that quote. */
  lemma {:induction false} StringBodyScans(src: seq<char>, i: nat, line: int, j: nat)
    requires i <= j < |src| && IsStringBody(src[i..j]) && src[j] == '"'
    ensures ScanString(src, i, line).Done? && ScanString(src, i, line).current == j + 1
    decreases j - i
  {
    var w := src[i..j];
    if i < j {
      assert w[0] == src[i];
      if src[i] == '\\' {
        assert w[2..] == src[i + 2..j];
        StringBodyScans(src, i + 2, line, j);
      } else {
        assert w[1..] == src[i + 1..j];
        StringBodyScans(src, i + 1, if src[i] == '\n' then line + 1 else line, j);
      }
    }
  }

  /** Which input gives which string diagnostic: after a well-formed body,
      end of input is an unterminated string, a backslash at the very end is
      an unterminated escape, and a backslash before a character it may not
      escape is a bad escape with the cursor on that character. */
  lemma {:induction false} StringFailures(src: seq<char>, i: nat, line: int, j: nat)
    requires i <= j <= |src| && IsStringBody(src[i..j])
    ensures j == |src| ==>
      ScanString(src, i, line).Failed? && ScanString(src, i, line).diagnostic == UnterminatedString
    ensures j + 1 == |src| && src[j] == '\\' ==>
      ScanString(src, i, line).Failed? && ScanString(src, i, line).diagnostic == UnterminatedAfterEscape
    ensures j + 1 < |src| && src[j] == '\\' && !IsEscapable(src[j + 1]) ==>
      ScanString(src, i, line).Failed? && ScanString(src, i, line).diagnostic == InvalidEscape &&
      ScanString(src, i, line).current == j + 1
    decreases j - i
  {
    var w := src[i..j];
    if i < j {
      assert w[0] == src[i];
      if src[i] == '\\' {
        assert w[2..] == src[i + 2..j];
        StringFailures(src, i + 2, line, j);
      } else {
        assert w[1..] == src[i + 1..j];
        StringFailures(src, i + 1, if src[i] == '\n' then line + 1 else line, j);
      }
    }
  }

  /** A string token is a quote, a well-formed body and a quote. */
  lemma StringLexeme(src: seq<char>, s: nat, line: int)
    requires s < |src| && src[s] == '"'
    ensures var o := Literal(src, s, line);
      o.token.Span? ==> o.token.kind == StringLiteral && s + 2 <= o.current &&
                        src[o.current - 1] == '"' && IsStringBody(src[s + 1..o.current - 1])
  {
    var r := ScanString(src, s + 1, line);
    assert Literal(src, s, line) == Conclude(StringLiteral, s, r);
    if r.Done? {
      ScannedStringHasBody(src, s + 1, line);
    }
  }

  /** The line after a string token counts the raw line breaks inside it. */
  lemma StringLexemeCountsLines(src: seq<char>, s: nat, line: int)
    requires s < |src| && src[s] == '"'
    ensures var o := Literal(src, s, line); o.line == line + LineBreaks(src, s, o.current)
  {
    var r := ScanString(src, s + 1, line);
    assert Literal(src, s, line) == Conclude(StringLiteral, s, r);
    ScanStringCountsLines(src, s + 1, line);
    LineBreaksSplit(src, s, s + 1, r.current);
  }

  /** Conversely, a quote, a well-formed body and a quote scan as one string
      token. */
  lemma StringLexemeScans(src: seq<char>, s: nat, line: int, j: nat)
    requires s < j < |src| && src[s] == '"' && src[j] == '"' && IsStringBody(src[s + 1..j])
    ensures var o := Literal(src, s, line);
      o.token.Span? && o.token.kind == StringLiteral && o.current == j + 1
  {
    StringBodyScans(src, s + 1, line, j);
  }

  // ---------------------------------------------------------------------
  // Character literals: exactly one character or one escape.

  /** A character literal's lexeme: one character other than a quote or a
      backslash, or one escape, between single quotes. */
  predicate IsCharLexeme(w: seq<char>) {
    (|w| == 3 && w[0] == '\'' && w[1] != '\'' && w[1] != '\\' && w[2] == '\'') ||
    (|w| == 4 && w[0] == '\'' && w[1] == '\\' && IsEscapable(w[2]) && w[3] == '\'')
  }

  /** A character literal scans exactly when its lexeme is well formed, and
      it never moves the line, even across a raw line break. */
  lemma CharLexeme(src: seq<char>, s: nat, line: int)
    requires s < |src| && src[s] == '\''
    ensures var o := Literal(src, s, line);
      o.line == line &&
      (o.token.Span? ==> o.token.kind == CharLiteral && IsCharLexeme(src[s..o.current]))
    ensures (s + 3 <= |src| && IsCharLexeme(src[s..s + 3])) || (s + 4 <= |src| && IsCharLexeme(src[s..s + 4])) ==>
      Literal(src, s, line).token.Span?
  {
    var o := Literal(src, s, line);
    if o.token.Span? {
      var w := src[s..o.current];
      if src[s + 1] == '\\' {
        assert w == [src[s], src[s + 1], src[s + 2], src[s + 3]];
      } else {
        assert w == [src[s], src[s + 1], src[s + 2]];
      }
    }
    if s + 3 <= |src| {
      var w := src[s..s + 3];
      assert w[1] == src[s + 1] && w[2] == src[s + 2];
    }
    if s + 4 <= |src| {
      var w := src[s..s + 4];
      assert w[1] == src[s + 1] && w[2] == src[s + 2] && w[3] == src[s + 3];
    }
  }

  // ---------------------------------------------------------------------
  // Identifiers and keywords.

  /** An identifier token is a maximal run of letters, digits and
      underscores, and it is a keyword exactly when the run spells one. */
  lemma IdentifierLexeme(src: seq<char>, s: nat, line: int)
    requires s < |src| && IsAlpha(src[s])
    ensures var o := Literal(src, s, line);
      var w := src[s..o.current];
      o.token.Span? && o.line == line && |w| >= 1 && IsAlpha(w[0]) &&
      (forall k :: 0 <= k < |w| ==> IsAlpha(w[k]) || IsDigit(w[k])) &&
      !(IsAlpha(CharAt(src, o.current)) || IsDigit(CharAt(src, o.current))) &&
      (o.token.kind == Identifier <==> forall k :: IsKeywordKind(k) ==> w != Keywords.KeywordSpelling(k)) &&
      (o.token.kind != Identifier ==> IsKeywordKind(o.token.kind) && w == Keywords.KeywordSpelling(o.token.kind))
  {
    var o := Literal(src, s, line);
    var w := src[s..o.current];
    Keywords.IdentifierIffNoKeyword(w);
    if o.token.kind != Identifier {
      Keywords.KeywordsAreExact(w);
    }
  }

  // ---------------------------------------------------------------------
  // Line counting.

  /** Apart from character literals, a token's text is counted: the line
      after the dispatcher is the line before it plus the line breaks in
      the lexeme (only a string literal can hold any). */
  lemma DispatchCountsLines(src: seq<char>, s: nat, line: int)
    requires s < |src| && AtTokenStart(src, s) && src[s] != '\''
    ensures var o := Dispatch(src, s, line); o.line == line + LineBreaks(src, s, o.current)
  {
    if OneCharOperator(src[s]).Some? {
      OperatorCountsNoLines(src, s, line);
    } else {
      OthersAreLiterals(src, s, line);
      LiteralCountsLines(src, s, line);
    }
  }

  lemma OperatorCountsNoLines(src: seq<char>, s: nat, line: int)
    requires s < |src| && OneCharOperator(src[s]).Some?
    ensures var o := Dispatch(src, s, line); o.line == line && LineBreaks(src, s, o.current) == 0
  {
    OperatorsMunchMaximally(src, s, line);
    var o := Dispatch(src, s, line);
    assert src[s] != '\n';
    if o.current == s + 2 {
      assert src[s + 1] != '\n';
    }
    NoLineBreaks(src, s, o.current);
  }

  lemma LiteralCountsLines(src: seq<char>, s: nat, line: int)
    requires s < |src| && AtTokenStart(src, s) && src[s] != '\''
    ensures var o := Literal(src, s, line); o.line == line + LineBreaks(src, s, o.current)
  {
    if src[s] == '"' {
      StringLexemeCountsLines(src, s, line);
    } else if IsDigit(src[s]) {
      NumberCountsNoLines(src, s, line);
    } else {
      WordCountsNoLines(src, s, line);
    }
  }

  lemma NumberCountsNoLines(src: seq<char>, s: nat, line: int)
    requires s < |src| && IsDigit(src[s])
    ensures var o := Literal(src, s, line); o.line == line && LineBreaks(src, s, o.current) == 0
  {
    var o := Literal(src, s, line);
    var e := DigitsEnd(src, s + 1);
    if o.current != e {
      assert forall k :: e + 1 <= k < o.current ==> IsDigit(src[k]);
    }
    NoLineBreaks(src, s, o.current);
  }

  lemma WordCountsNoLines(src: seq<char>, s: nat, line: int)
    requires s < |src| && AtTokenStart(src, s) && src[s] != '\'' && src[s] != '"' && !IsDigit(src[s])
    ensures var o := Literal(src, s, line); o.line == line && LineBreaks(src, s, o.current) == 0
  {
    var o := Literal(src, s, line);
    NoLineBreaks(src, s, o.current);
  }

  /** The line after one call of the scanner is the line before it plus
      the line breaks in the skipped trivia and in the token, except that a
      character literal's text is never counted. */
  lemma ScanCountsLines(src: seq<char>, pos: nat, line: int)
    requires pos <= |src|
    ensures var o := Scan(src, pos, line);
      o.line == line + LineBreaks(src, pos, o.start) +
                if o.start < |src| && src[o.start] == '\'' then 0 else LineBreaks(src, o.start, o.current)
  {
    var o := Scan(src, pos, line);
    var l := line + LineBreaks(src, pos, o.start);
    ScanIsNext(src, pos, line, o.start, l);
    if o.start < |src| {
      if src[o.start] == '\'' {
        OthersAreLiterals(src, o.start, l);
        CharLexeme(src, o.start, l);
      } else {
        DispatchCountsLines(src, o.start, l);
      }
    }
  }

  /** So the line never runs ahead of the line breaks consumed. */
  lemma ScanLineIsBounded(src: seq<char>, pos: nat, line: int)
    requires pos <= |src|
    ensures var o := Scan(src, pos, line); line <= o.line <= line + LineBreaks(src, pos, o.current)
  {
    var o := Scan(src, pos, line);
    ScanCountsLines(src, pos, line);
    LineBreaksSplit(src, pos, o.start, o.current);
  }

  // ---------------------------------------------------------------------
  // Trivia.

  /** Text made only of whitespace and line comments (a comment runs up to,
      not including, the next line break). */
  predicate IsTrivia(w: seq<char>)
    decreases |w|
  {
    if |w| == 0 then true
    else if IsBlank(w[0]) then IsTrivia(w[1..])
    else StartsComment(w, 0) && IsTrivia(w[CommentEnd(w, 0)..])
  }

  /** A comment that ends inside a slice ends at the same place in it. */
  lemma {:induction false} CommentEndInSlice(src: seq<char>, a: nat, b: nat, i: nat)
    requires a <= i <= b <= |src| && CommentEnd(src, i) <= b
    ensures CommentEnd(src[a..b], i - a) == CommentEnd(src, i) - a
    decreases |src| - i
  {
    if i < |src| && src[i] != '\n' {
      CommentEndInSlice(src, a, b, i + 1);
    }
  }

  /** Everything the scanner skips before a token is trivia. */
  lemma {:induction false} SkippedTextIsTrivia(src: seq<char>, pos: nat)
    requires pos <= |src|
    ensures IsTrivia(src[pos..TriviaEnd(src, pos)])
    decreases |src| - pos
  {
    var t := TriviaEnd(src, pos);
    var w := src[pos..t];
    if pos < |src| && IsBlank(src[pos]) {
      SkippedTextIsTrivia(src, pos + 1);
      assert w[1..] == src[pos + 1..t];
    } else if pos < |src| && StartsComment(src, pos) {
      var c := CommentEnd(src, pos);
      SkippedTextIsTrivia(src, c);
      CommentEndInSlice(src, pos, t, pos);
      assert w[c - pos..] == src[c..t];
    }
  }

  // ---------------------------------------------------------------------
  // End of input and the whole token stream.

  /** Once end-of-input is reported, every later call reports it again,
      at the same place and on the same line. */
  lemma EofIsSticky(src: seq<char>, pos: nat, line: int)
    requires pos <= |src| && Scan(src, pos, line).token.Span? && Scan(src, pos, line).token.kind == Eof
    ensures var o := Scan(src, pos, line); Scan(src, o.current, o.line) == o
  {
  }

  /** The outcomes of calling the scanner from pos until end-of-input. */
  function LexAll(src: seq<char>, pos: nat, line: int): (os: seq<Outcome>)
    requires pos <= |src|
    ensures |os| >= 1 && os[0] == Scan(src, pos, line)
    ensures forall k :: 0 <= k < |os| ==> os[k].current <= |src|
    ensures os[|os| - 1].start == os[|os| - 1].current == |src|
    ensures os[|os| - 1].token == Span(Eof, |src|, 0, os[|os| - 1].line)
    ensures forall k :: 0 <= k < |os| - 1 ==> os[k].token.Span? ==> os[k].token.kind != Eof
    decreases |src| - pos
  {
    var o := Scan(src, pos, line);
    if o.start == |src| then [o] else [o] + LexAll(src, o.current, o.line)
  }

  /** The text of a stream of outcomes: for each, the trivia before it and
      then the text the call consumed. */
  function Rebuild(src: seq<char>, pos: nat, os: seq<Outcome>): seq<char>
    requires pos <= |src|
    decreases |os|
  {
    if |os| == 0 || !(pos <= os[0].start <= os[0].current <= |src|) then []
    else src[pos..os[0].start] + src[os[0].start..os[0].current] + Rebuild(src, os[0].current, os[1..])
  }

  /** A stream whose outcomes follow one another up to the end of the
      input. */
  predicate Chained(src: seq<char>, pos: nat, os: seq<Outcome>)
    decreases |os|
  {
    |os| >= 1 && pos <= os[0].start <= os[0].current <= |src| &&
    if |os| == 1 then os[0].current == |src| else Chained(src, os[0].current, os[1..])
  }

  /** A chained stream rebuilds the input from where it started. */
  lemma {:induction false} ChainedRebuilds(src: seq<char>, pos: nat, os: seq<Outcome>)
    requires pos <= |src| && Chained(src, pos, os)
    ensures Rebuild(src, pos, os) == src[pos..]
    decreases |os|
  {
    var o := os[0];
    if |os| > 1 {
      ChainedRebuilds(src, o.current, os[1..]);
    } else {
      assert os[1..] == [];
    }
    assert src[pos..] == src[pos..o.start] + src[o.start..o.current] + src[o.current..];
  }

  lemma {:induction false} StreamIsChainedToEnd(src: seq<char>, pos: nat, line: int)
    requires pos <= |src|
    ensures Chained(src, pos, LexAll(src, pos, line))
    decreases |src| - pos
  {
    var os := LexAll(src, pos, line);
    var o := Scan(src, pos, line);
    if o.start < |src| {
      var rest := LexAll(src, o.current, o.line);
      StreamIsChainedToEnd(src, o.current, o.line);
      assert os == [o] + rest;
      assert os[1..] == rest;
    } else {
      assert os == [o];
    }
  }

  /** The trivia and the consumed text of the stream tile the rest of the input. */
  lemma StreamTilesInput(src: seq<char>, pos: nat, line: int)
    requires pos <= |src|
    ensures Rebuild(src, pos, LexAll(src, pos, line)) == src[pos..]
  {
    StreamIsChainedToEnd(src, pos, line);
    ChainedRebuilds(src, pos, LexAll(src, pos, line));
  }

  /** Each token of the stream starts where trivia skipping after the
      previous one stops, and lines never decrease. */
  lemma {:induction false} StreamIsChained(src: seq<char>, pos: nat, line: int, k: nat)
    requires pos <= |src| && k + 1 < |LexAll(src, pos, line)|
    ensures var os := LexAll(src, pos, line);
      os[k + 1] == Scan(src, os[k].current, os[k].line) && os[k].line <= os[k + 1].line &&
      os[k].current <= os[k + 1].start == TriviaEnd(src, os[k].current)
    decreases k
  {
    var o := Scan(src, pos, line);
    if k > 0 {
      StreamIsChained(src, o.current, o.line, k - 1);
    }
  }
}
