/** The earlier scanner (interpreter/lexer/lexer.c): the same cursor and
    trivia handling as the main one, but a dispatcher that knows only
    `;` `,` `!` `!=` `=` `==` `-` `->` and reports everything else as an
    unexpected character.

    The reference semantics `EarlyScan` reuses the trivia functions of
    module LexerSpec, and the class is proved to follow it. */
module EarlyLexer {
  import opened Tokens
  import opened LexerSpec

  /** The early dispatcher on the character at s. */
  function EarlyDispatch(src: seq<char>, s: nat, line: int): (o: Outcome)
    requires s < |src|
    ensures WellShaped(src, s, line, o) && o.line == line && o.current <= s + 2
  {
    match src[s]
    case ';' => Single(Semicolon, s, line)
    case ',' => Single(Comma, s, line)
    case '!' => Either(src, s, line, '=', BangEqual, Bang)
    case '=' => Either(src, s, line, '=', EqualEqual, Equal)
    case '-' => Either(src, s, line, '>', Arrow, Minus)
    case _ => Outcome(Error(UnexpectedCharacter, line), s, s + 1, line)
  }

  /** One call of the early scanner from cursor `pos` on line `line`. */
  function EarlyScan(src: seq<char>, pos: nat, line: int): (o: Outcome)
    requires pos <= |src|
    ensures o.start == TriviaEnd(src, pos) && o.start <= o.current <= |src|
    ensures o.line == line + LineBreaks(src, pos, o.start) && o.token.line == o.line
    ensures o.start == |src| ==> o.current == o.start && o.token == Span(Eof, o.start, 0, o.line)
    ensures o.start < |src| ==> o.start < o.current && !(o.token.Span? && o.token.kind == Eof)
    ensures o.token.Span? ==> o.token.start == o.start && o.start + o.token.length == o.current
  {
    EarlyNext(src, TriviaEnd(src, pos), line + LineBreaks(src, pos, TriviaEnd(src, pos)))
  }

  /** The token at s, a position where trivia skipping stopped. */
  function EarlyNext(src: seq<char>, s: nat, line: int): (o: Outcome)
    requires s <= |src|
  {
    if s == |src| then Outcome(Span(Eof, s, 0, line), s, s, line) else EarlyDispatch(src, s, line)
  }

  /** Once trivia is skipped, the call is the token where skipping stopped. */
  lemma EarlyScanIsNext(src: seq<char>, pos: nat, line: int, s: nat, l: int)
    requires pos <= |src| && s == TriviaEnd(src, pos)
    requires l == line + LineBreaks(src, pos, s)
    ensures EarlyScan(src, pos, line) == EarlyNext(src, s, l)
  {
  }

  /** The kinds the early scanner can produce. */
  predicate IsEarlyKind(k: TokenKind) {
    k in {Semicolon, Comma, Bang, BangEqual, Equal, EqualEqual, Minus, Arrow, Eof}
  }

  /** Every token is one of the early kinds or the unexpected-character
      error, which consumes exactly one character. */
  lemma EarlyTokens(src: seq<char>, pos: nat, line: int)
    requires pos <= |src|
    ensures var o := EarlyScan(src, pos, line);
      (o.token.Span? ==> IsEarlyKind(o.token.kind) && o.token.length <= 2) &&
      (o.token.Error? ==> o.token.diagnostic == UnexpectedCharacter && o.current == o.start + 1)
    ensures var o := EarlyScan(src, pos, line);
      o.token.Error? <==> o.start < |src| && src[o.start] !in {';', ',', '!', '=', '-'}
  {
  }

  /** On the characters both dispatchers handle alike, the early scanner
      and the main one agree: everywhere except at "-=", and at characters
      the early scanner does not know. */
  lemma EarlyAgreesWithMain(src: seq<char>, pos: nat, line: int)
    requires pos <= |src|
    requires var s := TriviaEnd(src, pos);
      s == |src| || src[s] in {';', ',', '!', '='} || (src[s] == '-' && CharAt(src, s + 1) != '=')
    ensures EarlyScan(src, pos, line) == Scan(src, pos, line)
  {
    var s := TriviaEnd(src, pos);
    var l := line + LineBreaks(src, pos, s);
    ScanIsNext(src, pos, line, s, l);
    EarlyScanIsNext(src, pos, line, s, l);
    if s < |src| {
      DispatchersAgree(src, s, l);
      assert Next(src, s, l) == Dispatch(src, s, l);
      assert EarlyNext(src, s, l) == EarlyDispatch(src, s, l);
    }
  }

  /** The two dispatchers agree on the characters they share, "-=" aside. */
  lemma DispatchersAgree(src: seq<char>, s: nat, line: int)
    requires s < |src| && (src[s] in {';', ',', '!', '='} || (src[s] == '-' && CharAt(src, s + 1) != '='))
    ensures EarlyDispatch(src, s, line) == Dispatch(src, s, line)
  {
    if src[s] == '-' {
      assert Dispatch(src, s, line) == Either(src, s, line, '>', Arrow, Minus);
    }
  }

  /** Where the main scanner reads "-=" as one token, the early one reads a
      minus (and then, on the next call, an equals sign). */
  lemma EarlyMinusEqualIsTwoTokens(src: seq<char>, pos: nat, line: int)
    requires pos <= |src|
    requires var s := TriviaEnd(src, pos); s + 1 < |src| && src[s] == '-' && src[s + 1] == '='
    ensures var o := EarlyScan(src, pos, line);
      o.token == Span(Minus, o.start, 1, o.line) && o.current == o.start + 1 &&
      var n := EarlyScan(src, o.current, o.line);
      n.start == o.current && n.token.Span? && (n.token.kind == Equal || n.token.kind == EqualEqual)
    ensures var o := Scan(src, pos, line); o.token == Span(MinusEqual, o.start, 2, o.line)
  {
    EarlyMinusAtMinusEqual(src, pos, line);
    var o := EarlyScan(src, pos, line);
    EqualAfterMinus(src, o.current, o.line);
    MainMinusEqual(src, pos, line);
  }

  /** The early scanner's call at "-=" reads a minus only. */
  lemma EarlyMinusAtMinusEqual(src: seq<char>, pos: nat, line: int)
    requires pos <= |src|
    requires var s := TriviaEnd(src, pos); s + 1 < |src| && src[s] == '-' && src[s + 1] == '='
    ensures var o := EarlyScan(src, pos, line);
      o.token == Span(Minus, o.start, 1, o.line) && o.current == o.start + 1 &&
      o.current < |src| && src[o.current - 1] == '-' && src[o.current] == '='
  {
    var s := TriviaEnd(src, pos);
    var l := line + LineBreaks(src, pos, s);
    EarlyScanIsNext(src, pos, line, s, l);
    assert EarlyDispatch(src, s, l) == Single(Minus, s, l);
  }

  /** The main scanner's call at "-=" reads one minus-equal token. */
  lemma MainMinusEqual(src: seq<char>, pos: nat, line: int)
    requires pos <= |src|
    requires var s := TriviaEnd(src, pos); s + 1 < |src| && src[s] == '-' && src[s + 1] == '='
    ensures var o := Scan(src, pos, line); o.token == Span(MinusEqual, o.start, 2, o.line)
  {
    var s := TriviaEnd(src, pos);
    var l := line + LineBreaks(src, pos, s);
    ScanIsNext(src, pos, line, s, l);
    assert Dispatch(src, s, l) == Double(MinusEqual, s, l);
  }

  /** The early scanner's call right after that minus reads the '='. */
  lemma EqualAfterMinus(src: seq<char>, i: nat, line: int)
    requires 0 < i < |src| && src[i - 1] == '-' && src[i] == '='
    ensures var n := EarlyScan(src, i, line);
      n.start == i && n.token.Span? && (n.token.kind == Equal || n.token.kind == EqualEqual)
  {
    StopAtToken(src, i);
    EarlyScanIsNext(src, i, line, i, line);
  }

  /** The early scanner never moves the line inside a token: a call's line
      counts exactly the line breaks in the skipped trivia. */
  lemma EarlyCountsLines(src: seq<char>, pos: nat, line: int)
    requires pos <= |src|
    ensures var o := EarlyScan(src, pos, line); o.line == line + LineBreaks(src, pos, o.current)
  {
    var o := EarlyScan(src, pos, line);
    if o.start < |src| {
      assert src[o.start] != '\n';
      if o.current == o.start + 2 {
        assert src[o.start + 1] != '\n';
      }
      NoLineBreaks(src, o.start, o.current);
      LineBreaksSplit(src, pos, o.start, o.current);
    }
  }

  /** Once end-of-input is reported, every later call reports it again. */
  lemma EarlyEofIsSticky(src: seq<char>, pos: nat, line: int)
    requires pos <= |src| && EarlyScan(src, pos, line).token.Span? && EarlyScan(src, pos, line).token.kind == Eof
    ensures var o := EarlyScan(src, pos, line); EarlyScan(src, o.current, o.line) == o
  {
  }

  /** "->" is one arrow. */
  lemma EarlyArrowExample(src: string)
    requires src == "->"
    ensures EarlyScan(src, 0, 1) == Outcome(Span(Arrow, 0, 2, 1), 0, 2, 1)
  {
    assert TriviaEnd(src, 0) == 0;
    EarlyScanIsNext(src, 0, 1, 0, 1);
  }

  /** "(" is unknown to the early scanner. */
  lemma EarlyParenExample(src: string)
    requires src == "("
    ensures EarlyScan(src, 0, 1) == Outcome(Error(UnexpectedCharacter, 1), 0, 1, 1)
  {
    assert TriviaEnd(src, 0) == 0;
    EarlyScanIsNext(src, 0, 1, 0, 1);
  }

  /** "-=" is a minus and then an equals sign. */
  lemma EarlyMinusEqualExample(src: string)
    requires src == "-="
    ensures EarlyScan(src, 0, 1) == Outcome(Span(Minus, 0, 1, 1), 0, 1, 1)
  {
    assert TriviaEnd(src, 0) == 0;
    EarlyScanIsNext(src, 0, 1, 0, 1);
  }

  lemma EarlyEqualAfterMinusExample(src: string)
    requires src == "-="
    ensures EarlyScan(src, 1, 1) == Outcome(Span(Equal, 1, 1, 1), 1, 2, 1)
  {
    assert TriviaEnd(src, 1) == 1;
    EarlyScanIsNext(src, 1, 1, 1, 1);
  }

  /** The scanner of interpreter/lexer/lexer.c, over the same buffer model
      as module Lexer. */
  class Scanner {
    const src: seq<char>
    var start: nat
    var current: nat
    var line: int

    ghost predicate Valid()
      reads this
    {
      '\0' !in src && start <= current <= |src| && line >= 1
    }

    /** initScanner. */
    constructor (source: seq<char>)
      requires '\0' !in source
      ensures Valid() && src == source
      ensures start == 0 && current == 0 && line == 1
    {
      src := source;
      start := 0;
      current := 0;
      line := 1;
    }

    function Buffer(): seq<char> {
      src + ['\0']
    }

    function IsAtEnd(): (b: bool)
      reads this
      requires Valid()
      ensures b <==> current == |src|
    {
      Buffer()[current] == '\0'
    }

    function Peek(): (c: char)
      reads this
      requires Valid()
      ensures c == CharAt(src, current)
    {
      Buffer()[current]
    }

    /** The character after the current one.  At end the C function reads
        one place past the terminator, so it is only defined before the
        end, where its guard for the terminator never fires; its one
        caller looks ahead only from a '/'. */
    function PeekNext(): (c: char)
      reads this
      requires Valid() && current < |src|
      ensures c == CharAt(src, current + 1)
    {
      Buffer()[current + 1]
    }

    method Advance() returns (c: char)
      requires Valid()
      modifies this`current
      ensures Valid()
      ensures old(current) == |src| ==> c == '\0' && current == old(current)
      ensures old(current) < |src| ==> c == src[old(current)] && current == old(current) + 1
    {
      if IsAtEnd() {
        return '\0';
      }
      c := Buffer()[current];
      current := current + 1;
    }

    method Match(expected: char) returns (matched: bool)
      requires Valid()
      modifies this`current
      ensures Valid()
      ensures matched <==> old(current) < |src| && src[old(current)] == expected
      ensures current == if matched then old(current) + 1 else old(current)
    {
      if IsAtEnd() {
        return false;
      }
      if Buffer()[current] != expected {
        return false;
      }
      current := current + 1;
      return true;
    }

    /** Skips whitespace and `//` comments, counting the line breaks.  The
        comment loop starts on the first slash and runs to the line break. */
    method SkipWhitespace()
      requires Valid()
      modifies this`current, this`line
      ensures Valid()
      ensures current == TriviaEnd(src, old(current))
      ensures line == old(line) + LineBreaks(src, old(current), current)
    {
      ghost var c0, l0 := current, line;
      while true
        invariant Valid() && c0 <= current
        invariant TriviaEnd(src, current) == TriviaEnd(src, c0)
        invariant line == l0 + LineBreaks(src, c0, current)
        decreases |src| - current
      {
        var c := Peek();
        if c == ' ' || c == '\t' || c == '\r' {
          SkipBlank(src, c0, current);
          var _ := Advance();
        } else if c == '\n' {
          SkipBlank(src, c0, current);
          line := line + 1;
          var _ := Advance();
        } else if c == '/' {
          if PeekNext() == '/' {
            SkipComment(src, c0, current);
            SkipCommentLine();
          } else {
            StopAtToken(src, current);
            return;
          }
        } else {
          StopAtToken(src, current);
          return;
        }
      }
    }

    /** The comment loop of skipWhitespace, from the first slash. */
    method SkipCommentLine()
      requires Valid() && current < |src| && src[current] == '/'
      modifies this`current
      ensures Valid() && current == CommentEnd(src, old(current))
    {
      while !IsAtEnd() && Peek() != '\n'
        invariant Valid() && old(current) <= current <= CommentEnd(src, old(current))
        invariant CommentEnd(src, current) == CommentEnd(src, old(current))
        decreases |src| - current
      {
        var _ := Advance();
      }
    }

    function CreateToken(kind: TokenKind): (t: Token)
      reads this
      requires Valid()
      ensures t == Span(kind, start, current - start, line)
    {
      Span(kind, start, current - start, line)
    }

    function ErrorToken(diagnostic: Diagnostic): Token
      reads this
    {
      Error(diagnostic, line)
    }

    /** scanToken: skip trivia, then report end-of-input or dispatch on the
        next character. */
    method ScanToken() returns (t: Token)
      requires Valid()
      modifies this
      ensures Valid()
      ensures Outcome(t, start, current, line) == EarlyScan(src, old(current), old(line))
    {
      SkipWhitespace();
      start := current;
      EarlyScanIsNext(src, old(current), old(line), start, line);
      if IsAtEnd() {
        return CreateToken(Eof);
      }
      var c := Advance();
      t := DispatchToken(c);
    }

    /** The switch of scanToken on the token's first character `c`, which
        is consumed. */
    method DispatchToken(c: char) returns (t: Token)
      requires Valid() && start < |src| && current == start + 1 && c == src[start]
      modifies this`current
      ensures Valid()
      ensures Outcome(t, start, current, line) == EarlyDispatch(src, start, line)
    {
      match c
      case ';' => return CreateToken(Semicolon);
      case ',' => return CreateToken(Comma);
      case '!' => t := OneOrTwo('=', BangEqual, Bang);
      case '=' => t := OneOrTwo('=', EqualEqual, Equal);
      case '-' => t := OneOrTwo('>', Arrow, Minus);
      case _ => return ErrorToken(UnexpectedCharacter);
    }

    /** `createToken(match(second) ? two : one)`. */
    method OneOrTwo(second: char, two: TokenKind, one: TokenKind) returns (t: Token)
      requires Valid() && current == start + 1 && second != '\0'
      modifies this`current
      ensures Valid()
      ensures Outcome(t, start, current, line) == Either(src, start, line, second, two, one)
    {
      var m := Match(second);
      return CreateToken(if m then two else one);
    }
  }
}
