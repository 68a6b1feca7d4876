# Scanner of a small statically typed scripting language, in Dafny

The system is the lexical front end of a small scripting language. One
scanner walks a NUL-terminated source buffer and produces tokens on demand.
Before each token it skips whitespace and `//` comments and counts lines.
It then reports end-of-input, a one- or two-character operator, a
character, string or number literal, an identifier or keyword, or an error
token carrying a fixed diagnostic. Two revisions of the scanner exist:

- `shared/lexer/lexer.c` is the main one, with the full token set, escape
  checks and the keyword trie;
- `interpreter/lexer/lexer.c` is an earlier one with the same cursor and
  trivia handling, but it knows only `;` `,` `!` `!=` `=` `==` `-` `->` and
  reports every other character as unexpected.

The project has these modules:

- `Tokens` (`tokens.dfy`): token kinds, tokens, and the diagnostics with
  their exact texts. An error token carries a `Diagnostic`, not a view of
  the source.
- `Keywords` (`keywords.dfy`): `checkKeyword` and the hand-unrolled trie
  `identifierType`, proved against a reference spelling table.
- `LexerSpec` (`lexer_spec.dfy`): the main scanner as pure functions of the
  source, cursor and line (`TriviaEnd`, `ScanString`, `ScanChar`,
  `ScanNumber`, `Dispatch`, `Scan`, ...).
- `Lexer` (`lexer.dfy`): the main scanner as a class. Its fields `start`,
  `current` and `line` are updated in place, as the C functions update the
  global scanner. Each scanning method (`SkipWhitespace`, the literal
  scanners, `ScanToken` and the dispatch methods) is proved to do exactly
  what the matching `LexerSpec` function says; the cursor helpers
  (`IsAtEnd`, `Advance`, `Peek`, `PeekNext`, `Match`) carry their own
  contracts.
- `LexerProperties` (`lexer_properties.dfy`): what `Scan` guarantees:
  - maximal munch against an independent operator table;
  - the shape of each literal's lexeme, in both directions;
  - the longest number;
  - line counting;
  - that skipped text is trivia;
  - that end-of-input is sticky;
  - that the token stream tiles the input.
- `LexerExamples` (`lexer_examples.dfy`): concrete inputs such as `<<=`,
  `12.`, a comment before a number, a multi-line string and the escape
  errors.
- `EarlyLexer` (`early_lexer.dfy`): the earlier scanner. It has its reference
  semantics `EarlyScan`, a class proved against it, and lemmas comparing it
  with the main scanner.

Buffer model. The C buffer is the source followed by a NUL. Here it is
`src + ['\0']` with `'\0' !in src`, so "at end" is exactly
`current == |src|`. The `char *` cursors `start` and `current` become offsets. A
token's lexeme is the offset `start` and a `length`. The C scanner reads its
buffer one byte at a time, so here one `char` of `src` stands for one byte:
the model is faithful for text whose every character is a single byte (ASCII
source). Multi-byte text is outside it (see "## Left out").

## Model

| member | source | states |
|---|---|---|
| Lexer.Scanner.constructor | shared/lexer/lexer.c:20-25 | The scanner is bound to the source, with start and cursor at 0, on line 1. |
| Lexer.Scanner.IsAtEnd | shared/lexer/lexer.c:27-30 | True exactly when the cursor is on the terminator, just past the source. |
| Lexer.Scanner.Advance | shared/lexer/lexer.c:32-36 | Returns the current character and moves one place. At end it returns NUL and stays, so it never moves past the buffer. |
| Lexer.Scanner.Peek | shared/lexer/lexer.c:38-41 | The character under the cursor, which is NUL exactly at end. |
| Lexer.Scanner.PeekNext | shared/lexer/lexer.c:44-48 | The character after the current one. It is NUL at and just before the end, and never reads past the terminator. |
| Lexer.Scanner.SkipWhitespace | shared/lexer/lexer.c:50-90 | Stops exactly where trivia skipping stops (`TriviaEnd`). The line grows by the number of line breaks skipped. |
| Lexer.Scanner.SkipLineComment | shared/lexer/lexer.c:68-78 | Consumes the two slashes and the rest of the line. It stops in front of the line break or at end (`CommentEnd`). |
| Lexer.Scanner.Match | shared/lexer/lexer.c:164-170 | Consumes one character exactly when it is the expected one, and never at end. |
| Lexer.Scanner.IsCharLiteral | shared/lexer/lexer.c:184-217 | The cursor, line and token (literal or one of the three diagnostics) are those `ScanChar` prescribes. |
| Lexer.Scanner.IsStringLiteral | shared/lexer/lexer.c:220-267 | The cursor, the line and the token are those `ScanString` prescribes. The loop invariant keeps the rest of the scan equal to it, including each raw line break. |
| Lexer.Scanner.IsNumberLiteral | shared/lexer/lexer.c:269-292 | The cursor ends after the number and the kind is the one `ScanNumber` gives. |
| Lexer.Scanner.SkipDigits | shared/lexer/lexer.c:274-277 | Each digit loop stops at the end of the maximal digit run (`DigitsEnd`). |
| Lexer.Scanner.IsIdentifier | shared/lexer/lexer.c:413-422 | Consumes the maximal alphanumeric run and classifies it with the trie. |
| Lexer.Scanner.ScanToken | shared/lexer/lexer.c:424-476 | One call produces exactly the outcome of `Scan` from the old cursor and line: the token, the new start, cursor and line. |
| Lexer.Scanner.DispatchToken | shared/lexer/lexer.c:435-475 | The switch on the consumed first character follows `Dispatch`. |
| Lexer.Scanner.PairToken | shared/lexer/lexer.c:447-459 | The `.` `+` `*` `/` `%` `=` `!` `&` `|` arms follow `Dispatch`. |
| Lexer.Scanner.TripleToken | shared/lexer/lexer.c:453-457 | The `-` `<` `>` arms, with their two successive `match` calls, follow `Dispatch`. |
| Lexer.Scanner.OneOrTwo | shared/lexer/lexer.c:447-459 | `createToken(match(x) ? two : one)` is the one-or-two-character outcome `Either`. |
| Lexer.Scanner.ScanLiteral | shared/lexer/lexer.c:463-475 | The literal, identifier and fallback arms follow `Literal`. |
| LexerSpec.LineBreaks | shared/lexer/lexer.c:63-66 | A count of line breaks in a piece of the source, never more than its length. |
| LexerSpec.LineBreaksCount | shared/lexer/lexer.c:63-66 | That count is the number of occurrences of `'\n'` in the piece. |
| LexerSpec.LineBreaksSplit | shared/lexer/lexer.c:63-66 | Line breaks add up over adjacent pieces. |
| LexerSpec.CommentEnd | shared/lexer/lexer.c:75-78 | The end of a comment is the first line break at or after the position, or the end. There is no line break before it. |
| LexerSpec.TriviaEnd | shared/lexer/lexer.c:50-90 | Skipping moves forward and stops at the end or at a character that is neither whitespace nor the start of a comment. |
| LexerSpec.SkipBlank | shared/lexer/lexer.c:58-66 | Skipping one whitespace character moves one place and counts it if it is a line break. |
| LexerSpec.SkipComment | shared/lexer/lexer.c:68-78 | Skipping a comment moves to its end and counts no line break. |
| LexerSpec.DigitsEnd | shared/lexer/lexer.c:274-277 | The end of the maximal digit run: all digits before it, none at it. |
| LexerSpec.IdentifierEnd | shared/lexer/lexer.c:416-419 | The end of the maximal run of letters, digits and underscores. |
| LexerSpec.ScanNumber | shared/lexer/lexer.c:269-292 | A number is an integer or a float, and the cursor never moves back. |
| LexerSpec.ScanString | shared/lexer/lexer.c:220-267 | On success the cursor is past a closing quote. Each failure leaves it where the diagnostic says: at end for "Unterminated string", at end just after a backslash for the escape variant, on the bad character after a backslash for "Invalid escape sequence.". |
| LexerSpec.ScanStringCountsLines | shared/lexer/lexer.c:224-228 | The line after a string is the line before it plus the raw line breaks consumed inside it. |
| LexerSpec.IsDigit | shared/lexer/lexer.c:172-175 | The ten decimal digits `0` to `9`. (A predicate with no contract; its definition is the statement.) |
| LexerSpec.IsAlpha | shared/lexer/lexer.c:177-182 | The letters `a` to `z` and `A` to `Z`, and also the underscore `_`. (A predicate with no contract.) |
| LexerSpec.IsEscapable | shared/lexer/lexer.c:196-198 | The nine characters a backslash may escape, in character and in string literals (the same list at lines 240-248): both quotes, the backslash, `n`, `{`, `}`, `t`, `r` and `0`. (A predicate with no contract.) |
| LexerSpec.CloseChar | shared/lexer/lexer.c:206-216 | After the one character, the literal closes (cursor past the quote) exactly when a quote follows. Otherwise it is "Character literal must contain exactly one character." with the cursor on the character that is not a quote. The line is unchanged. |
| LexerSpec.ScanChar | shared/lexer/lexer.c:184-217 | A character literal never moves the line, and the cursor stays in the buffer. |
| LexerSpec.ScanCharOutcomes | shared/lexer/lexer.c:184-217 | For every input: a quote right away is the empty-literal error with the cursor on it; a backslash before a character it may not escape is the escape error with the cursor on that character; end of input is the too-long error at end; after one plain character or one escape the literal closes exactly when a quote follows and is the too-long error otherwise, with the cursor on the offending character. These cases cover every input. |
| LexerSpec.Dispatch | shared/lexer/lexer.c:434-475 | Every dispatched outcome starts at the token, consumes at least one character, never moves the line back and is never end-of-input. A span token covers what was consumed. |
| LexerSpec.Literal | shared/lexer/lexer.c:463-475 | The literal arms have the same shape guarantees. |
| LexerSpec.Scan | shared/lexer/lexer.c:424-476 | A call starts its token where trivia ends. At end it reports end-of-input with an empty lexeme. Otherwise it consumes at least one character and is not end-of-input. |
| LexerSpec.ScanIsNext | shared/lexer/lexer.c:427-432 | Proof helper: unfolds a call into the token at the position where trivia skipping stops, on the counted line. |
| Keywords.CheckKeyword | shared/lexer/lexer.c:295-302 | The result is the candidate keyword exactly when the span is the already-matched prefix followed by `rest`. Otherwise it is an identifier. |
| Keywords.IdentifierType | shared/lexer/lexer.c:305-411 | The trie yields an identifier or one of the 31 keyword kinds. |
| Keywords.AfterB | shared/lexer/lexer.c:309-319 | The switch under `b` yields `bool`, `break` or an identifier. |
| Keywords.AfterC | shared/lexer/lexer.c:320-343 | The switches under `c` and `con` yield `char`, `const`, `continue` or an identifier. |
| Keywords.AfterF | shared/lexer/lexer.c:346-359 | The switch under `f` yields `false`, `fn`, `for`, `f32`, `f64` or an identifier. |
| Keywords.AfterI | shared/lexer/lexer.c:360-374 | The switch under `i` yields `if`, `in`, `i8`, `i16`, `i32`, `i64` or an identifier. |
| Keywords.AfterM | shared/lexer/lexer.c:376-386 | The switch under `m` yields `match`, `mut` or an identifier. |
| Keywords.AfterU | shared/lexer/lexer.c:391-403 | The switch under `u` yields `u8`, `u16`, `u32`, `u64` or an identifier. |
| Keywords.KeywordsAreRecognised | shared/lexer/lexer.c:305-411 | Each keyword's exact spelling is classified as that keyword. |
| Keywords.KeywordsAreExact | shared/lexer/lexer.c:305-411 | A span classified as a keyword is exactly that keyword's spelling. |
| Keywords.IdentifierTypeIsExact | shared/lexer/lexer.c:305-411 | A span is keyword k if and only if it spells k. |
| Keywords.IdentifierIffNoKeyword | shared/lexer/lexer.c:407-410 | A span is an identifier if and only if it spells no keyword. |
| Keywords.NearMissesOfFor | shared/lexer/lexer.c:346-359 | `for` is the keyword, while `f`, `fo`, `fort` and `forge` are identifiers. |
| Keywords.NearMissesOfConstAndI | shared/lexer/lexer.c:320-374 | `const` and `i64` are keywords, while `constant`, `con`, `i` and `i128` are identifiers. |
| LexerProperties.OneCharOperator | shared/lexer/lexer.c:437-461 | An independent table of single-character operators, each spelled by its character. |
| LexerProperties.TwoCharOperator | shared/lexer/lexer.c:447-459 | An independent table of the 15 two-character operators, each spelled by its two characters. |
| LexerProperties.OperatorsMunchMaximally | shared/lexer/lexer.c:437-461 | At an operator character the scanner takes the two-character operator when the input spells one, and otherwise the one-character one. |
| LexerProperties.OthersAreLiterals | shared/lexer/lexer.c:463-475 | Every other character goes to the literal, identifier or error arm. |
| LexerProperties.UnexpectedCharacters | shared/lexer/lexer.c:473-474 | A character that starts no operator, literal or identifier gives "Unexpected character.", consuming just that character on the same line. Conversely, that error comes only from such a character. |
| LexerProperties.OperatorLexemeIsSpelling | shared/lexer/lexer.c:437-461 | An operator token's lexeme is the spelling of its kind. |
| LexerProperties.NumberLexeme | shared/lexer/lexer.c:269-292 | An integer's lexeme is all digits. A float's is digits, a dot, digits. The line is unchanged. |
| LexerProperties.IntLexeme | shared/lexer/lexer.c:274-277 | An integer ends where the digit run ends, and its lexeme is all digits. |
| LexerProperties.FloatLexeme | shared/lexer/lexer.c:279-289 | A float's lexeme is digits, a dot, digits. |
| LexerProperties.NumberIsLongest | shared/lexer/lexer.c:274-289 | No longer prefix of the input is a number lexeme, so the scanner takes the longest one and leaves a dot without a digit after it. |
| LexerProperties.ScannedStringHasBody | shared/lexer/lexer.c:222-259 | A string that scans has a well-formed body: no bare quote, and every backslash escapes a recognised character. |
| LexerProperties.StringBodyScans | shared/lexer/lexer.c:222-266 | Conversely, a well-formed body followed by a quote scans and ends at that quote. |
| LexerProperties.StringFailures | shared/lexer/lexer.c:222-262 | Which input gives which string diagnostic, for all inputs: after a well-formed body, end of input gives "Unterminated string"; a backslash as the last character gives "Unterminated string after escape."; a backslash before a character it may not escape gives "Invalid escape sequence." with the cursor on that character. |
| LexerProperties.StringLexeme | shared/lexer/lexer.c:220-267 | A string token is a quote, a well-formed body and a quote. |
| LexerProperties.StringLexemeCountsLines | shared/lexer/lexer.c:220-267 | The line after a string literal (token or error) is the line before it plus the raw line breaks inside it. |
| LexerProperties.StringLexemeScans | shared/lexer/lexer.c:220-267 | A quote, a well-formed body and a quote scan as one string token ending at that quote. |
| LexerProperties.CharLexeme | shared/lexer/lexer.c:184-217 | A character literal scans if and only if its lexeme is three characters (one plain character) or four (one escape) between quotes. It never moves the line. |
| LexerProperties.IdentifierLexeme | shared/lexer/lexer.c:413-422 | An identifier token is a maximal run of letters, digits and underscores starting with a letter or an underscore. It is a keyword exactly when the run spells one. |
| LexerProperties.DispatchCountsLines | shared/lexer/lexer.c:434-475 | Apart from character literals, the line after a token is the line before it plus the line breaks in its lexeme. |
| LexerProperties.OperatorCountsNoLines | shared/lexer/lexer.c:437-461 | Operators hold no line break and keep the line. |
| LexerProperties.LiteralCountsLines | shared/lexer/lexer.c:463-475 | Literal and identifier tokens count the line breaks in their lexeme (only strings hold any). |
| LexerProperties.NumberCountsNoLines | shared/lexer/lexer.c:269-292 | A number holds no line break and keeps the line. |
| LexerProperties.WordCountsNoLines | shared/lexer/lexer.c:413-422 | An identifier, keyword or unexpected character holds no line break and keeps the line. |
| LexerProperties.ScanCountsLines | shared/lexer/lexer.c:424-476 | After a call the line is the old line plus the line breaks in the skipped trivia and in the token. The exception is a character literal, whose text is never counted. |
| LexerProperties.ScanLineIsBounded | shared/lexer/lexer.c:424-476 | The line never decreases and never runs ahead of the line breaks consumed. |
| LexerProperties.SkippedTextIsTrivia | shared/lexer/lexer.c:50-90 | Everything skipped before a token is whitespace and line comments. |
| LexerProperties.CommentEndInSlice | shared/lexer/lexer.c:75-78 | A comment ends at the same place when seen inside a slice of the input. |
| LexerProperties.EofIsSticky | shared/lexer/lexer.c:432 | After end-of-input, the next call reports end-of-input again, at the same place and line. |
| LexerProperties.LexAll | shared/lexer/lexer.c:424-476 | Calling the scanner until end-of-input terminates and ends with end-of-input at the end of the source. No earlier token is an end-of-input token. |
| LexerProperties.StreamIsChained | shared/lexer/lexer.c:427-429 | Each token of the stream is the next call's result. It starts where trivia after the previous token ends, and lines never decrease. |
| LexerProperties.StreamIsChainedToEnd | shared/lexer/lexer.c:424-476 | The stream's outcomes follow one another and the last ends at the end of the input. |
| LexerProperties.ChainedRebuilds | shared/lexer/lexer.c:424-476 | The trivia skipped and the text consumed by each call of a chained stream, concatenated, rebuild the input. |
| LexerProperties.StreamTilesInput | shared/lexer/lexer.c:424-476 | The trivia skipped and the text consumed by each call of the whole stream, concatenated, are exactly the input. (For an error token the consumed text is not its lexeme, which is the message.) |
| LexerExamples.ArrowIsOneToken | shared/lexer/lexer.c:453 | `->` is one arrow token. |
| LexerExamples.ShiftThenEqual | shared/lexer/lexer.c:456 | `<<=` starts with a left shift: there is no three-character operator. |
| LexerExamples.EqualAfterShift | shared/lexer/lexer.c:454 | After that shift comes an equals sign. |
| LexerExamples.EndAfterShiftEqual | shared/lexer/lexer.c:432 | Then end-of-input, with an empty lexeme. |
| LexerExamples.IntegerExample | shared/lexer/lexer.c:269-292 | `12` is an integer. |
| LexerExamples.FloatExample | shared/lexer/lexer.c:279-289 | `12.5` is a float. |
| LexerExamples.IntegerThenDot | shared/lexer/lexer.c:279 | `12.` starts with the integer `12`. |
| LexerExamples.DotAfterInteger | shared/lexer/lexer.c:447 | Then comes a dot. |
| LexerExamples.CommentThenNumber | shared/lexer/lexer.c:50-90 | In `// x` plus a line break plus `1`, the first token is the integer `1` on line 2. |
| LexerExamples.MultiLineString | shared/lexer/lexer.c:224-228 | A string with a raw line break spans all six characters and leaves the scanner on line 2. |
| LexerExamples.EndAfterMultiLineString | shared/lexer/lexer.c:432 | Then end-of-input on line 2. |
| LexerExamples.CharEscapeError | shared/lexer/lexer.c:192-202 | `'\q'` gives the character-escape error with the cursor on the `q`. |
| LexerExamples.StringEscapeError | shared/lexer/lexer.c:230-252 | `"\q"` gives the string-escape error with the cursor on the `q`. |
| LexerExamples.EmptyCharError | shared/lexer/lexer.c:186-190 | `''` gives the empty-literal error with the cursor on the second quote. |
| LexerExamples.EmptyCharThenLoneQuote | shared/lexer/lexer.c:206-212 | After `''`, the second quote opens a literal that end-of-input cuts short. |
| LexerExamples.UnexpectedCharacterIsSkipped | shared/lexer/lexer.c:474 | An unknown character is one error token that consumes it. |
| EarlyLexer.EarlyDispatch | interpreter/lexer/lexer.c:176-195 | The early dispatcher consumes one or two characters and keeps the line. A span token covers what was consumed and is never end-of-input. |
| EarlyLexer.EarlyScan | interpreter/lexer/lexer.c:169-196 | A call starts its token where trivia ends and counts the line breaks in the trivia. At end it reports end-of-input, and otherwise it consumes at least one character. |
| EarlyLexer.EarlyScanIsNext | interpreter/lexer/lexer.c:171-174 | Proof helper: unfolds a call into the token at the position where trivia skipping stops. |
| EarlyLexer.EarlyTokens | interpreter/lexer/lexer.c:176-195 | Every token is one of the nine early kinds, or the unexpected-character error consuming exactly one character. A call gives that error if and only if its first character is none of `;` `,` `!` `=` `-`. |
| EarlyLexer.DispatchersAgree | interpreter/lexer/lexer.c:176-195 | On `;` `,` `!` `=`, and on `-` not followed by `=`, the early and main dispatchers agree. |
| EarlyLexer.EarlyAgreesWithMain | interpreter/lexer/lexer.c:169-196 | On those characters, and at end, a call of the early scanner equals a call of the main one. |
| EarlyLexer.EarlyMinusEqualIsTwoTokens | interpreter/lexer/lexer.c:188-189 | Where the main scanner reads `-=` as one token, the early one reads a minus and then an equals token. |
| EarlyLexer.EarlyMinusAtMinusEqual | interpreter/lexer/lexer.c:188-189 | At `-=` the early scanner reads a one-character minus. |
| EarlyLexer.EqualAfterMinus | interpreter/lexer/lexer.c:186-187 | Its next call reads the `=` (as `=` or `==`). |
| EarlyLexer.MainMinusEqual | shared/lexer/lexer.c:453 | At `-=` the main scanner reads one minus-equal token. |
| EarlyLexer.EarlyCountsLines | interpreter/lexer/lexer.c:56-89 | The line after a call counts exactly the line breaks consumed. |
| EarlyLexer.EarlyEofIsSticky | interpreter/lexer/lexer.c:174 | After end-of-input, the next call reports it again. |
| EarlyLexer.EarlyArrowExample | interpreter/lexer/lexer.c:188-189 | `->` is one arrow. |
| EarlyLexer.EarlyParenExample | interpreter/lexer/lexer.c:193-194 | `(` is an unexpected character to the early scanner. |
| EarlyLexer.EarlyMinusEqualExample | interpreter/lexer/lexer.c:188-189 | `-=` starts with a minus. |
| EarlyLexer.EarlyEqualAfterMinusExample | interpreter/lexer/lexer.c:186-187 | Then comes an equals sign. |
| EarlyLexer.Scanner.constructor | interpreter/lexer/lexer.c:20-25 | The scanner is bound to the source, at 0, on line 1. |
| EarlyLexer.Scanner.IsAtEnd | interpreter/lexer/lexer.c:27-34 | True exactly when the cursor is on the terminator. |
| EarlyLexer.Scanner.Advance | interpreter/lexer/lexer.c:36-40 | Returns the current character and moves one place. At end it returns NUL and stays. |
| EarlyLexer.Scanner.Peek | interpreter/lexer/lexer.c:42-45 | The character under the cursor. |
| EarlyLexer.Scanner.PeekNext | interpreter/lexer/lexer.c:47-54 | Before the end, the character after the current one. |
| EarlyLexer.Scanner.SkipWhitespace | interpreter/lexer/lexer.c:56-89 | Stops where trivia skipping stops and counts the line breaks skipped. |
| EarlyLexer.Scanner.SkipCommentLine | interpreter/lexer/lexer.c:76-79 | From the first slash, consumes up to the line break or the end. |
| EarlyLexer.Scanner.Match | interpreter/lexer/lexer.c:161-167 | Consumes one character exactly when it is the expected one. |
| EarlyLexer.Scanner.ScanToken | interpreter/lexer/lexer.c:169-196 | One call produces exactly the outcome of `EarlyScan`. |
| EarlyLexer.Scanner.DispatchToken | interpreter/lexer/lexer.c:176-195 | The switch on the consumed character follows `EarlyDispatch`. |
| EarlyLexer.Scanner.OneOrTwo | interpreter/lexer/lexer.c:184-189 | `createToken(match(x) ? two : one)` is the outcome `Either`. |

`createToken` and `errorToken` are modelled by `CreateToken` and
`ErrorToken` in both classes. They only build a token: a span from `start`
to the cursor, or a `Diagnostic`, on the current line. What the tokens mean
is stated elsewhere. `Dispatch` and `Scan` say that a span starts at the
token and ends at the cursor. The diagnostics are stated by
`LexerSpec.ScanCharOutcomes` (character literals), `LexerSpec.ScanString`
and `LexerProperties.StringFailures` (strings),
`LexerProperties.UnexpectedCharacters` (the main scanner's fallback) and
`EarlyLexer.EarlyTokens` (the early scanner). The C `switch` of `scanToken` in
the main scanner is split into `ScanToken`, `DispatchToken` (one-character
operators), `PairToken` and `TripleToken` (operators of two or three
possible tokens) and `ScanLiteral` (literals and the fallback), with
`OneOrTwo` for the `createToken(match(x) ? a : b)` pattern. The comment loop
of `skipWhitespace` is its own method in both classes, and the two digit
loops of `isNumberLiteral` are one method, `SkipDigits`, called twice. The control flow is the
same as the C.

## Left out

- `readFile`, `runFile` and `main` (shared/lexer/lexer.c:113-161 and 479-527; interpreter/lexer/lexer.c:111-159 and 198-240) are file and console I/O and are not part of this model.
- The global scanner instance is left out. Each `Scanner` object is its own session.
- The C `int` of `line` and of a token's `length` is modelled as an unbounded integer. Overflow past 2^31 - 1 lines or characters is not modelled.
- The source is required to hold no NUL. The C scanner would stop at the first one, so the text after it is never scanned.
- An error token's lexeme in C is the address of a static message and its `strlen`. Here the token carries a `Diagnostic`, whose `Text()` is the exact message.
- EarlyLexer.Scanner.PeekNext: defined only before the end, because at end the C reads one place past the terminator. Its only caller looks ahead from a `/`, so before the end.
- The headers `lexer.h` and `token.h` declare only types and prototypes, and they are not part of this model. `TokenKind` lists the kinds the two dispatchers produce.
- Lifetimes of token views (a view is valid only while the buffer lives) are not modelled. Sequences are values here.
- Two behaviours of the source are worth noting, and the model keeps both:
  - A raw line break between single quotes makes a valid character literal but does not bump `line` (shared/lexer/lexer.c:205-208), unlike a raw line break in a string. So line counting (`LexerProperties.ScanCountsLines`) excludes character literals.
  - End of input right after a backslash in a string gives its own diagnostic, "Unterminated string after escape." (shared/lexer/lexer.c:233-236), not the plain unterminated-string one.
- Multi-byte text is not modelled. A `char` of `src` stands for one byte of the C buffer. On text whose characters take several bytes (UTF-8 `é` is two), the C scanner treats each byte as its own character, so its token lengths (byte counts), its character-literal errors and its count of unexpected-character errors differ from what the model gives for the same text read as characters.
