/** Concrete inputs and what the main scanner makes of them, each stated
    about the reference semantics `LexerSpec.Scan` one call at a time.
    The input is a parameter fixed by the precondition, and the proof walks
    the reference functions one step at a time. */
module LexerExamples {
  import opened Tokens
  import opened LexerSpec

  /** "->" is one arrow, not a minus and a greater-than. */
  lemma ArrowIsOneToken(src: string)
    requires src == "->"
    ensures Scan(src, 0, 1) == Outcome(Span(Arrow, 0, 2, 1), 0, 2, 1)
  {
    assert TriviaEnd(src, 0) == 0;
    ScanIsNext(src, 0, 1, 0, 1);
    assert Dispatch(src, 0, 1) == Double(Arrow, 0, 1);
  }

  /** There is no three-character operator: "<<=" is a left shift, then an
      equals sign, then the end. */
  lemma ShiftThenEqual(src: string)
    requires src == "<<="
    ensures Scan(src, 0, 1) == Outcome(Span(LeftShift, 0, 2, 1), 0, 2, 1)
  {
    assert TriviaEnd(src, 0) == 0;
    ScanIsNext(src, 0, 1, 0, 1);
    assert Dispatch(src, 0, 1) == Double(LeftShift, 0, 1);
  }

  lemma EqualAfterShift(src: string)
    requires src == "<<="
    ensures Scan(src, 2, 1) == Outcome(Span(Equal, 2, 1, 1), 2, 3, 1)
  {
    assert TriviaEnd(src, 2) == 2;
    ScanIsNext(src, 2, 1, 2, 1);
    assert Dispatch(src, 2, 1) == Single(Equal, 2, 1);
  }

  lemma EndAfterShiftEqual(src: string)
    requires src == "<<="
    ensures Scan(src, 3, 1) == Outcome(Span(Eof, 3, 0, 1), 3, 3, 1)
  {
    assert TriviaEnd(src, 3) == 3;
    ScanIsNext(src, 3, 1, 3, 1);
  }

  /** "12" is an integer. */
  lemma IntegerExample(src: string)
    requires src == "12"
    ensures Scan(src, 0, 1) == Outcome(Span(IntLiteral, 0, 2, 1), 0, 2, 1)
  {
    assert TriviaEnd(src, 0) == 0;
    ScanIsNext(src, 0, 1, 0, 1);
    assert DigitsEnd(src, 2) == 2;
    assert DigitsEnd(src, 1) == 2;
    assert ScanNumber(src, 1) == (IntLiteral, 2);
    assert Dispatch(src, 0, 1) == Literal(src, 0, 1);
  }

  /** "12.5" is a float. */
  lemma FloatExample(src: string)
    requires src == "12.5"
    ensures Scan(src, 0, 1) == Outcome(Span(FloatLiteral, 0, 4, 1), 0, 4, 1)
  {
    assert TriviaEnd(src, 0) == 0;
    ScanIsNext(src, 0, 1, 0, 1);
    assert DigitsEnd(src, 4) == 4;
    assert DigitsEnd(src, 3) == 4;
    assert DigitsEnd(src, 2) == 2;
    assert DigitsEnd(src, 1) == 2;
    assert ScanNumber(src, 1) == (FloatLiteral, 4);
    assert Dispatch(src, 0, 1) == Literal(src, 0, 1);
  }

  /** In "12." the dot is not followed by a digit, so it is an integer and
      then a dot. */
  lemma IntegerThenDot(src: string)
    requires src == "12."
    ensures Scan(src, 0, 1) == Outcome(Span(IntLiteral, 0, 2, 1), 0, 2, 1)
  {
    assert TriviaEnd(src, 0) == 0;
    ScanIsNext(src, 0, 1, 0, 1);
    assert DigitsEnd(src, 2) == 2;
    assert DigitsEnd(src, 1) == 2;
    assert ScanNumber(src, 1) == (IntLiteral, 2);
    assert Dispatch(src, 0, 1) == Literal(src, 0, 1);
  }

  lemma DotAfterInteger(src: string)
    requires src == "12."
    ensures Scan(src, 2, 1) == Outcome(Span(Dot, 2, 1, 1), 2, 3, 1)
  {
    assert TriviaEnd(src, 2) == 2;
    ScanIsNext(src, 2, 1, 2, 1);
    assert Dispatch(src, 2, 1) == Single(Dot, 2, 1);
  }

  /** A comment and the line break after it are skipped; the integer that
      follows is on line 2. */
  lemma CommentThenNumber(src: string)
    requires src == "// x\n1"
    ensures Scan(src, 0, 1) == Outcome(Span(IntLiteral, 5, 1, 2), 5, 6, 2)
  {
    assert CommentEnd(src, 4) == 4;
    assert CommentEnd(src, 2) == 4;
    assert CommentEnd(src, 0) == 4;
    assert TriviaEnd(src, 5) == 5;
    assert TriviaEnd(src, 4) == 5;
    assert TriviaEnd(src, 0) == 5;
    assert LineBreaks(src, 0, 1) == 0;
    assert LineBreaks(src, 0, 3) == 0;
    assert LineBreaks(src, 0, 5) == 1;
    ScanIsNext(src, 0, 1, 5, 2);
    assert DigitsEnd(src, 6) == 6;
    assert ScanNumber(src, 6) == (IntLiteral, 6);
    assert Dispatch(src, 5, 2) == Literal(src, 5, 2);
  }

  /** A string with a raw line break inside spans all six characters and
      leaves the scanner on the next line. */
  lemma MultiLineString(src: string)
    requires src == "\"abc\n\""
    ensures Scan(src, 0, 1) == Outcome(Span(StringLiteral, 0, 6, 2), 0, 6, 2)
  {
    assert TriviaEnd(src, 0) == 0;
    ScanIsNext(src, 0, 1, 0, 1);
    assert ScanString(src, 5, 2) == Done(6, 2);
    assert ScanString(src, 3, 1) == Done(6, 2);
    assert ScanString(src, 1, 1) == Done(6, 2);
    assert Dispatch(src, 0, 1) == Literal(src, 0, 1);
  }

  lemma EndAfterMultiLineString(src: string)
    requires src == "\"abc\n\""
    ensures Scan(src, 6, 2) == Outcome(Span(Eof, 6, 0, 2), 6, 6, 2)
  {
    assert TriviaEnd(src, 6) == 6;
    ScanIsNext(src, 6, 2, 6, 2);
  }

  /** The escape errors, and where each leaves the cursor. */
  lemma CharEscapeError(src: string)
    requires src == "'\\q'"
    ensures Scan(src, 0, 1) == Outcome(Error(InvalidCharEscape, 1), 0, 2, 1)
  {
    assert TriviaEnd(src, 0) == 0;
    ScanIsNext(src, 0, 1, 0, 1);
    assert ScanChar(src, 1, 1) == Failed(InvalidCharEscape, 2, 1);
    assert Dispatch(src, 0, 1) == Literal(src, 0, 1);
  }

  lemma StringEscapeError(src: string)
    requires src == "\"\\q\""
    ensures Scan(src, 0, 1) == Outcome(Error(InvalidEscape, 1), 0, 2, 1)
  {
    assert TriviaEnd(src, 0) == 0;
    ScanIsNext(src, 0, 1, 0, 1);
    assert ScanString(src, 1, 1) == Failed(InvalidEscape, 2, 1);
    assert Dispatch(src, 0, 1) == Literal(src, 0, 1);
  }

  lemma EmptyCharError(src: string)
    requires src == "''"
    ensures Scan(src, 0, 1) == Outcome(Error(EmptyCharLiteral, 1), 0, 1, 1)
  {
    assert TriviaEnd(src, 0) == 0;
    ScanIsNext(src, 0, 1, 0, 1);
    assert ScanChar(src, 1, 1) == Failed(EmptyCharLiteral, 1, 1);
    assert Dispatch(src, 0, 1) == Literal(src, 0, 1);
  }

  /** After the empty literal's error the second quote opens another
      literal, which the end of input cuts short. */
  lemma EmptyCharThenLoneQuote(src: string)
    requires src == "''"
    ensures Scan(src, 1, 1) == Outcome(Error(CharTooLong, 1), 1, 2, 1)
  {
    assert TriviaEnd(src, 1) == 1;
    ScanIsNext(src, 1, 1, 1, 1);
    assert ScanChar(src, 2, 1) == Failed(CharTooLong, 2, 1);
    assert Dispatch(src, 1, 1) == Literal(src, 1, 1);
  }

  /** A character the language does not use is one error token. */
  lemma UnexpectedCharacterIsSkipped(src: string)
    requires src == " @x"
    ensures Scan(src, 0, 1) == Outcome(Error(UnexpectedCharacter, 1), 1, 2, 1)
  {
    assert TriviaEnd(src, 1) == 1;
    assert TriviaEnd(src, 0) == 1;
    assert LineBreaks(src, 0, 1) == 0;
    ScanIsNext(src, 0, 1, 1, 1);
    assert Dispatch(src, 1, 1) == Literal(src, 1, 1);
  }
}
