/** Reference semantics of the main scanner (shared/lexer/lexer.c) as pure
    functions over the source text.

    The scanner's buffer is the source followed by a NUL terminator, and the
    source itself holds no NUL, so a position `i` is "at end" exactly when
    `i == |src|`.  Every function here takes the position of the cursor and
    the current line and says where the cursor and the line end up; the
    class in module Lexer is proved to follow these functions step by step,
    and module LexerProperties proves what they guarantee. */
module LexerSpec {
  import opened Tokens
  import Keywords

  /** The character the scanner sees at position i: the source character,
      or the terminator at (and, for lookahead, past) the end. */
  function CharAt(src: seq<char>, i: nat): char {
    if i < |src| then src[i] else '\0'
  }

  /** The ten decimal digits. */
  predicate IsDigit(c: char) {
    '0' <= c <= '9'
  }

  /** The letters of either case, and the underscore. */
  predicate IsAlpha(c: char) {
    ('a' <= c <= 'z') || ('A' <= c <= 'Z') || c == '_'
  }

  /** The characters that may follow a backslash in string and character
      literals.  The terminator is not among them, so an escape never runs
      past the end of the buffer. */
  predicate IsEscapable(c: char) {
    c in {'\'', '"', '\\', 'n', '{', '}', 't', 'r', '0'}
  }

  /** Whitespace the scanner skips; only '\n' bumps the line. */
  predicate IsBlank(c: char) {
    c == ' ' || c == '\t' || c == '\r' || c == '\n'
  }

  /** The number of line breaks among src[a..b], counted from the back so
      that one more character costs one unfolding. */
  function LineBreaks(src: seq<char>, a: nat, b: nat): (n: nat)
    requires a <= b <= |src|
    ensures n <= b - a
    decreases b - a
  {
    if a == b then 0 else LineBreaks(src, a, b - 1) + if src[b - 1] == '\n' then 1 else 0
  }

  predicate StartsComment(src: seq<char>, i: nat) {
    i + 1 < |src| && src[i] == '/' && src[i + 1] == '/'
  }

  /** A position where trivia skipping stops: the end, or a character that
      is neither whitespace nor the start of a `//` comment. */
  predicate AtTokenStart(src: seq<char>, i: nat) {
    i <= |src| && (i == |src| || (!IsBlank(src[i]) && !StartsComment(src, i)))
  }

  /** The end of a line comment that runs through position i: the first
      '\n' at or after i (which the comment does not include), or the end. */
  function CommentEnd(src: seq<char>, i: nat): (j: nat)
    requires i <= |src|
    ensures i <= j <= |src|
    ensures forall k :: i <= k < j ==> src[k] != '\n'
    ensures j == |src| || src[j] == '\n'
    decreases |src| - i
  {
    if i == |src| || src[i] == '\n' then i else CommentEnd(src, i + 1)
  }

  /** Where skipping whitespace and comments from position i stops. */
  function TriviaEnd(src: seq<char>, i: nat): (j: nat)
    requires i <= |src|
    ensures i <= j <= |src|
    ensures AtTokenStart(src, j)
    decreases |src| - i
  {
    if i == |src| then i
    else if IsBlank(src[i]) then TriviaEnd(src, i + 1)
    else if StartsComment(src, i) then TriviaEnd(src, CommentEnd(src, i))
    else i
  }

  /** Line breaks add up over adjacent pieces of the source. */
  lemma {:induction false} LineBreaksSplit(src: seq<char>, a: nat, b: nat, c: nat)
    requires a <= b <= c <= |src|
    ensures LineBreaks(src, a, c) == LineBreaks(src, a, b) + LineBreaks(src, b, c)
    decreases c - b
  {
    if b < c {
      LineBreaksSplit(src, a, b, c - 1);
    }
  }

  /** The count is the multiplicity of '\n' in the piece. */
  lemma {:induction false} LineBreaksCount(src: seq<char>, a: nat, b: nat)
    requires a <= b <= |src|
    ensures LineBreaks(src, a, b) == multiset(src[a..b])['\n']
    decreases b - a
  {
    if a < b {
      LineBreaksCount(src, a, b - 1);
      assert src[a..b] == src[a..b - 1] + [src[b - 1]];
    }
  }

  lemma {:induction false} NoLineBreaks(src: seq<char>, a: nat, b: nat)
    requires a <= b <= |src| && forall k :: a <= k < b ==> src[k] != '\n'
    ensures LineBreaks(src, a, b) == 0
    decreases b - a
  {
    if a < b {
      NoLineBreaks(src, a, b - 1);
    }
  }

  /** Skipping stops at once where a token starts. */
  lemma StopAtToken(src: seq<char>, i: nat)
    requires i <= |src| && AtTokenStart(src, i)
    ensures TriviaEnd(src, i) == i
  {
  }

  /** Skipping one whitespace character at i (trivia skipping started at
      c0) moves to i + 1 and counts it if it is a line break. */
  lemma SkipBlank(src: seq<char>, c0: nat, i: nat)
    requires c0 <= i < |src| && IsBlank(src[i])
    ensures TriviaEnd(src, i) == TriviaEnd(src, i + 1)
    ensures LineBreaks(src, c0, i + 1) == LineBreaks(src, c0, i) + if src[i] == '\n' then 1 else 0
  {
  }

  /** Skipping a comment that starts at i moves to its end and counts no
      line break. */
  lemma SkipComment(src: seq<char>, c0: nat, i: nat)
    requires c0 <= i && StartsComment(src, i)
    ensures TriviaEnd(src, i) == TriviaEnd(src, CommentEnd(src, i))
    ensures LineBreaks(src, c0, CommentEnd(src, i)) == LineBreaks(src, c0, i)
  {
    var j := CommentEnd(src, i);
    NoLineBreaks(src, i, j);
    LineBreaksSplit(src, c0, i, j);
  }

  /** The end of the maximal run of digits starting at i. */
  function DigitsEnd(src: seq<char>, i: nat): (j: nat)
    requires i <= |src|
    ensures i <= j <= |src|
    ensures forall k :: i <= k < j ==> IsDigit(src[k])
    ensures j == |src| || !IsDigit(src[j])
    decreases |src| - i
  {
    if i < |src| && IsDigit(src[i]) then DigitsEnd(src, i + 1) else i
  }

  /** The end of the maximal run of letters, digits and underscores
      starting at i. */
  function IdentifierEnd(src: seq<char>, i: nat): (j: nat)
    requires i <= |src|
    ensures i <= j <= |src|
    ensures forall k :: i <= k < j ==> IsAlpha(src[k]) || IsDigit(src[k])
    ensures j == |src| || !(IsAlpha(src[j]) || IsDigit(src[j]))
    decreases |src| - i
  {
    if i < |src| && (IsAlpha(src[i]) || IsDigit(src[i])) then IdentifierEnd(src, i + 1) else i
  }

  /** A number literal whose first digit has just been consumed (the cursor
      is at i): its kind and the cursor after it.  The fraction is taken only
      when the '.' is followed by a digit. */
  function ScanNumber(src: seq<char>, i: nat): (r: (TokenKind, nat))
    requires i <= |src|
    ensures r.0 == IntLiteral || r.0 == FloatLiteral
    ensures i <= r.1 <= |src|
  {
    var e := DigitsEnd(src, i);
    if CharAt(src, e) == '.' && IsDigit(CharAt(src, e + 1)) then
      (FloatLiteral, DigitsEnd(src, e + 1))
    else
      (IntLiteral, e)
  }

  /** What a literal sub-scanner leaves behind: success with the cursor
      after the literal, or a diagnostic with the cursor where it stopped. */
  datatype Step =
    | Done(current: nat, line: int)
    | Failed(diagnostic: Diagnostic, current: nat, line: int)

  /** The body of a string literal whose opening '"' has been consumed (the
      cursor is at i).  Raw line breaks inside the literal bump the line. */
  function ScanString(src: seq<char>, i: nat, line: int): (r: Step)
    requires i <= |src|
    ensures i <= r.current <= |src| && r.line >= line
    ensures r.Done? ==> i < r.current && src[r.current - 1] == '"'
    ensures r.Failed? ==> match r.diagnostic
              case UnterminatedString => r.current == |src|
              case UnterminatedAfterEscape => i < r.current == |src| && src[r.current - 1] == '\\'
              case InvalidEscape =>
                i < r.current < |src| && src[r.current - 1] == '\\' && !IsEscapable(src[r.current])
              case _ => false
    decreases |src| - i
  {
    if i == |src| then Failed(UnterminatedString, i, line)
    else if src[i] == '"' then Done(i + 1, line)
    else if src[i] == '\\' then
      if i + 1 == |src| then Failed(UnterminatedAfterEscape, i + 1, line)
      else if IsEscapable(src[i + 1]) then ScanString(src, i + 2, line)
      else Failed(InvalidEscape, i + 1, line)
    else ScanString(src, i + 1, if src[i] == '\n' then line + 1 else line)
  }

  /** The line after a string literal is the line before it plus the raw
      line breaks the scanner consumed inside it. */
  lemma {:induction false} ScanStringCountsLines(src: seq<char>, i: nat, line: int)
    requires i <= |src|
    ensures var r := ScanString(src, i, line); r.line == line + LineBreaks(src, i, r.current)
    decreases |src| - i
  {
    if i == |src| {
    } else if src[i] == '"' {
    } else if src[i] == '\\' {
      if i + 1 < |src| && IsEscapable(src[i + 1]) {
        var r := ScanString(src, i + 2, line);
        ScanStringCountsLines(src, i + 2, line);
        LineBreaksSplit(src, i, i + 2, r.current);
      }
    } else {
      var l := if src[i] == '\n' then line + 1 else line;
      var r := ScanString(src, i + 1, l);
      ScanStringCountsLines(src, i + 1, l);
      LineBreaksSplit(src, i, i + 1, r.current);
    }
  }

  /** src[i..k] is the one character of a character literal: a character
      other than a quote or a backslash, or a backslash and a character it
      may escape. */
  predicate CharBody(src: seq<char>, i: nat, k: nat) {
    (k == i + 1 && i < |src| && src[i] != '\'' && src[i] != '\\') ||
    (k == i + 2 && i + 1 < |src| && src[i] == '\\' && IsEscapable(src[i + 1]))
  }

  /** After one character (or one escape) of a character literal the next
      character must be the closing quote. */
  function CloseChar(src: seq<char>, k: nat, line: int): (r: Step)
    requires k <= |src|
    ensures r.line == line
    ensures r.Done? <==> k < |src| && src[k] == '\''
    ensures r.Done? ==> r.current == k + 1
    ensures r.Failed? ==> r.diagnostic == CharTooLong && r.current == k
  {
    if CharAt(src, k) == '\'' then Done(k + 1, line) else Failed(CharTooLong, k, line)
  }

  /** The body of a character literal whose opening quote has been consumed
      (the cursor is at i).  The line never changes here, even when the one
      character is a raw line break. */
  function ScanChar(src: seq<char>, i: nat, line: int): (r: Step)
    requires i <= |src|
    ensures i <= r.current <= |src| && r.line == line
  {
    if CharAt(src, i) == '\'' then Failed(EmptyCharLiteral, i, line)
    else if CharAt(src, i) == '\\' then
      if IsEscapable(CharAt(src, i + 1)) then CloseChar(src, i + 2, line)
      else Failed(InvalidCharEscape, i + 1, line)
    else CloseChar(src, if i < |src| then i + 1 else i, line)
  }

  /** Every outcome of a character literal, for all inputs: a quote right
      away is an empty literal, with the cursor on that quote; a backslash
      before a character it may not escape is a bad escape, with the cursor
      on that character; end of input is a literal that is too long; and
      after the one character the literal closes exactly when a quote
      follows, and is too long otherwise, with the cursor on the character
      that is not a quote. */
  lemma ScanCharOutcomes(src: seq<char>, i: nat, line: int)
    requires i <= |src|
    ensures CharAt(src, i) == '\'' ==> ScanChar(src, i, line) == Failed(EmptyCharLiteral, i, line)
    ensures CharAt(src, i) == '\\' && !IsEscapable(CharAt(src, i + 1)) ==>
      ScanChar(src, i, line) == Failed(InvalidCharEscape, i + 1, line)
    ensures i == |src| ==> ScanChar(src, i, line) == Failed(CharTooLong, i, line)
    ensures forall k: nat | CharBody(src, i, k) ::
      ScanChar(src, i, line) == if CharAt(src, k) == '\'' then Done(k + 1, line) else Failed(CharTooLong, k, line)
    ensures i < |src| ==>
      CharAt(src, i) == '\'' || (CharAt(src, i) == '\\' && !IsEscapable(CharAt(src, i + 1))) ||
      CharBody(src, i, i + 1) || CharBody(src, i, i + 2)
  {
  }

  /** The scanner state after one call: the token, and the new `start`,
      `current` and `line`. */
  datatype Outcome = Outcome(token: Token, start: nat, current: nat, line: int)

  /** Turns a literal sub-scanner's step into a token starting at s. */
  function Conclude(kind: TokenKind, s: nat, r: Step): Outcome
    requires s <= r.current
  {
    match r
    case Done(current, line) => Outcome(Span(kind, s, current - s, line), s, current, line)
    case Failed(diagnostic, current, line) => Outcome(Error(diagnostic, line), s, current, line)
  }

  function Single(kind: TokenKind, s: nat, line: int): Outcome {
    Outcome(Span(kind, s, 1, line), s, s + 1, line)
  }

  function Double(kind: TokenKind, s: nat, line: int): Outcome {
    Outcome(Span(kind, s, 2, line), s, s + 2, line)
  }

  /** A one-character operator that becomes the two-character `two` when the
      next character is `second`. */
  function Either(src: seq<char>, s: nat, line: int, second: char, two: TokenKind, one: TokenKind): Outcome {
    if CharAt(src, s + 1) == second then Double(two, s, line) else Single(one, s, line)
  }

  /** Properties every token the dispatcher produces has. */
  ghost predicate WellShaped(src: seq<char>, s: nat, line: int, o: Outcome) {
    o.start == s && s < o.current <= |src| && o.line >= line && o.token.line == o.line &&
    (o.token.Span? ==> o.token.kind != Eof && o.token.start == s && s + o.token.length == o.current)
  }

  /** The dispatcher: the token that starts with the character at s, which
      is not at end and not trivia. */
  function Dispatch(src: seq<char>, s: nat, line: int): (o: Outcome)
    requires s < |src|
    ensures WellShaped(src, s, line, o)
  {
    var i := s + 1;
    match src[s]
    case '(' => Single(LeftParen, s, line)
    case ')' => Single(RightParen, s, line)
    case '{' => Single(LeftBrace, s, line)
    case '}' => Single(RightBrace, s, line)
    case '[' => Single(LeftBracket, s, line)
    case ']' => Single(RightBracket, s, line)
    case ',' => Single(Comma, s, line)
    case ':' => Single(Colon, s, line)
    case ';' => Single(Semicolon, s, line)
    case '?' => Single(Question, s, line)
    case '.' => Either(src, s, line, '.', DotDot, Dot)
    case '+' => Either(src, s, line, '=', PlusEqual, Plus)
    case '*' => Either(src, s, line, '=', StarEqual, Star)
    case '/' => Either(src, s, line, '=', SlashEqual, Slash)
    case '%' => Either(src, s, line, '=', PercentEqual, Percent)
    case '-' =>
      if CharAt(src, i) == '>' then Double(Arrow, s, line)
      else Either(src, s, line, '=', MinusEqual, Minus)
    case '=' => Either(src, s, line, '=', EqualEqual, Equal)
    case '!' => Either(src, s, line, '=', BangEqual, Bang)
    case '<' =>
      if CharAt(src, i) == '<' then Double(LeftShift, s, line)
      else Either(src, s, line, '=', LessEqual, Less)
    case '>' =>
      if CharAt(src, i) == '>' then Double(RightShift, s, line)
      else Either(src, s, line, '=', GreaterEqual, Greater)
    case '&' => Either(src, s, line, '&', And, BitAnd)
    case '|' => Either(src, s, line, '|', Or, BitOr)
    case '^' => Single(BitXor, s, line)
    case '~' => Single(BitNot, s, line)
    case _ => Literal(src, s, line)
  }

  /** The literal and fallback arms of the dispatcher: character and string
      literals, numbers, identifiers and keywords, and the error for any
      other character. */
  function Literal(src: seq<char>, s: nat, line: int): (o: Outcome)
    requires s < |src|
    ensures WellShaped(src, s, line, o)
  {
    var c, i := src[s], s + 1;
    if c == '\'' then Conclude(CharLiteral, s, ScanChar(src, i, line))
    else if c == '"' then Conclude(StringLiteral, s, ScanString(src, i, line))
    else if IsDigit(c) then
      var r := ScanNumber(src, i);
      Outcome(Span(r.0, s, r.1 - s, line), s, r.1, line)
    else if IsAlpha(c) then
      var e := IdentifierEnd(src, i);
      Outcome(Span(Keywords.IdentifierType(src[s..e]), s, e - s, line), s, e, line)
    else
      Outcome(Error(UnexpectedCharacter, line), s, i, line)
  }

  /** One call of the scanner from cursor `pos` on line `line`: skip trivia,
      then either report end-of-input or dispatch on the next character. */
  function Scan(src: seq<char>, pos: nat, line: int): (o: Outcome)
    requires pos <= |src|
    ensures o.start == TriviaEnd(src, pos) && o.start <= o.current <= |src|
    ensures o.line >= line && o.token.line == o.line
    ensures o.start == |src| ==> o.current == o.start && o.token == Span(Eof, o.start, 0, o.line)
    ensures o.start < |src| ==> o.start < o.current && !(o.token.Span? && o.token.kind == Eof)
    ensures o.token.Span? ==> o.token.start == o.start && o.start + o.token.length == o.current
  {
    Next(src, TriviaEnd(src, pos), line + LineBreaks(src, pos, TriviaEnd(src, pos)))
  }

  /** The token at s, a position where trivia skipping stopped. */
  function Next(src: seq<char>, s: nat, line: int): (o: Outcome)
    requires s <= |src|
  {
    if s == |src| then Outcome(Span(Eof, s, 0, line), s, s, line) else Dispatch(src, s, line)
  }

  /** Once trivia is skipped, the call is the token where skipping stopped. */
  lemma ScanIsNext(src: seq<char>, pos: nat, line: int, s: nat, l: int)
    requires pos <= |src| && s == TriviaEnd(src, pos)
    requires l == line + LineBreaks(src, pos, s)
    ensures Scan(src, pos, line) == Next(src, s, l)
  {
  }
}
