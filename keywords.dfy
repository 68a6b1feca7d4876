/** Keyword classification of an identifier span (shared/lexer/lexer.c).

    The scanner decides whether a scanned identifier is a reserved word with
    a hand-unrolled trie: it dispatches on the first one to four characters
    and then compares the remainder of the span against the one candidate
    reached.  The model keeps that shape and proves it equal to a plain
    lookup in the table of the 31 keywords. */
module Keywords {
  import opened Tokens

  /** The reference list: the exact spelling of each of the 31 keywords. */
  function KeywordSpelling(k: TokenKind): (w: string)
    requires IsKeywordKind(k)
  {
    match k
    case Bool => "bool"
    case Break => "break"
    case Char => "char"
    case Const => "const"
    case Continue => "continue"
    case Do => "do"
    case Else => "else"
    case False => "false"
    case Fn => "fn"
    case For => "for"
    case F32 => "f32"
    case F64 => "f64"
    case If => "if"
    case In => "in"
    case I8 => "i8"
    case I16 => "i16"
    case I32 => "i32"
    case I64 => "i64"
    case Loop => "loop"
    case Match => "match"
    case Mut => "mut"
    case Null => "null"
    case Return => "return"
    case String => "string"
    case True => "true"
    case U8 => "u8"
    case U16 => "u16"
    case U32 => "u32"
    case U64 => "u64"
    case Void => "void"
    case While => "while"
  }

  /** The span is the keyword `kind` when its length is exactly
      `offset + |rest|` and its characters from `offset` on are `rest`.
      The length is compared first, so the comparison of the remainder never
      looks past the end of the span. */
  function CheckKeyword(span: seq<char>, offset: nat, rest: string, kind: TokenKind): (r: TokenKind)
    ensures r == kind || r == Identifier
    ensures kind != Identifier ==>
              (r == kind <==> offset <= |span| && span == span[..offset] + rest)
  {
    if |span| == offset + |rest| && span[offset..] == rest then kind else Identifier
  }

  /** The trie: dispatch on the first character.  Letters that start
      several keywords go on to a switch on the next character, as the
      nested switches of the source do; the others go straight to a leaf. */
  function IdentifierType(span: seq<char>): (r: TokenKind)
    requires |span| >= 1
    ensures r == Identifier || IsKeywordKind(r)
  {
    match span[0]
    case 'b' => AfterB(span)
    case 'c' => AfterC(span)
    case 'd' => CheckKeyword(span, 1, "o", Do)
    case 'e' => CheckKeyword(span, 1, "lse", Else)
    case 'f' => AfterF(span)
    case 'i' => AfterI(span)
    case 'l' => CheckKeyword(span, 1, "oop", Loop)
    case 'm' => AfterM(span)
    case 'n' => CheckKeyword(span, 1, "ull", Null)
    case 'r' => CheckKeyword(span, 1, "eturn", Return)
    case 's' => CheckKeyword(span, 1, "tring", String)
    case 't' => CheckKeyword(span, 1, "rue", True)
    case 'u' => AfterU(span)
    case 'v' => CheckKeyword(span, 1, "oid", Void)
    case 'w' => CheckKeyword(span, 1, "hile", While)
    case _ => Identifier
  }

  function AfterB(span: seq<char>): (r: TokenKind)
    ensures r in {Bool, Break, Identifier}
  {
    if |span| > 1 then
      match span[1]
      case 'o' => CheckKeyword(span, 2, "ol", Bool)
      case 'r' => CheckKeyword(span, 2, "eak", Break)
      case _ => Identifier
    else Identifier
  }

  /** `c`: `char`, and `con` followed by `st` or `tinue`. */
  function AfterC(span: seq<char>): (r: TokenKind)
    ensures r in {Char, Const, Continue, Identifier}
  {
    if |span| > 1 then
      match span[1]
      case 'h' => CheckKeyword(span, 2, "ar", Char)
      case 'o' =>
        if |span| > 2 && span[2] == 'n' && |span| > 3 then
          match span[3]
          case 's' => CheckKeyword(span, 4, "t", Const)
          case 't' => CheckKeyword(span, 4, "inue", Continue)
          case _ => Identifier
        else Identifier
      case _ => Identifier
    else Identifier
  }

  function AfterF(span: seq<char>): (r: TokenKind)
    ensures r in {False, Fn, For, F32, F64, Identifier}
  {
    if |span| > 1 then
      match span[1]
      case 'a' => CheckKeyword(span, 2, "lse", False)
      case 'n' => CheckKeyword(span, 2, "", Fn)
      case 'o' => CheckKeyword(span, 2, "r", For)
      case '3' => CheckKeyword(span, 2, "2", F32)
      case '6' => CheckKeyword(span, 2, "4", F64)
      case _ => Identifier
    else Identifier
  }

  function AfterI(span: seq<char>): (r: TokenKind)
    ensures r in {If, In, I8, I16, I32, I64, Identifier}
  {
    if |span| > 1 then
      match span[1]
      case 'f' => CheckKeyword(span, 2, "", If)
      case 'n' => CheckKeyword(span, 2, "", In)
      case '8' => CheckKeyword(span, 2, "", I8)
      case '1' => CheckKeyword(span, 2, "6", I16)
      case '3' => CheckKeyword(span, 2, "2", I32)
      case '6' => CheckKeyword(span, 2, "4", I64)
      case _ => Identifier
    else Identifier
  }

  function AfterM(span: seq<char>): (r: TokenKind)
    ensures r in {Match, Mut, Identifier}
  {
    if |span| > 1 then
      match span[1]
      case 'a' => CheckKeyword(span, 2, "tch", Match)
      case 'u' => CheckKeyword(span, 2, "t", Mut)
      case _ => Identifier
    else Identifier
  }

  function AfterU(span: seq<char>): (r: TokenKind)
    ensures r in {U8, U16, U32, U64, Identifier}
  {
    if |span| > 1 then
      match span[1]
      case '8' => CheckKeyword(span, 2, "", U8)
      case '1' => CheckKeyword(span, 2, "6", U16)
      case '3' => CheckKeyword(span, 2, "2", U32)
      case '6' => CheckKeyword(span, 2, "4", U64)
      case _ => Identifier
    else Identifier
  }

  // Each branch of the trie, on its own: a span that reaches a keyword
  // through it is that keyword's spelling.

  /** The leaves right under the first character. */
  lemma SpellsLeaf(span: seq<char>, rest: string, kind: TokenKind)
    requires |span| >= 1 && IsKeywordKind(kind) && KeywordSpelling(kind) == [span[0]] + rest
    requires CheckKeyword(span, 1, rest, kind) == kind
    ensures span == KeywordSpelling(kind)
  {
    assert span[..1] == [span[0]];
  }

  /** A leaf right under the first character, stated for the trie. */
  lemma ExactLeaf(span: seq<char>, rest: string, kind: TokenKind)
    requires |span| >= 1 && IsKeywordKind(kind) && KeywordSpelling(kind) == [span[0]] + rest
    requires IdentifierType(span) == CheckKeyword(span, 1, rest, kind) != Identifier
    ensures span == KeywordSpelling(IdentifierType(span))
  {
    SpellsLeaf(span, rest, kind);
  }

  /** The leaves under the second character. */
  lemma SpellsLeaf2(span: seq<char>, rest: string, kind: TokenKind)
    requires |span| >= 2 && IsKeywordKind(kind) && KeywordSpelling(kind) == [span[0], span[1]] + rest
    requires CheckKeyword(span, 2, rest, kind) == kind
    ensures span == KeywordSpelling(kind)
  {
    assert span[..2] == [span[0], span[1]];
  }

  lemma SpellsB(span: seq<char>)
    requires |span| >= 1 && span[0] == 'b' && IdentifierType(span) != Identifier
    ensures span == KeywordSpelling(IdentifierType(span))
  {
    if span[1] == 'o' {
      SpellsLeaf2(span, "ol", Bool);
    } else {
      SpellsLeaf2(span, "eak", Break);
    }
  }

  lemma SpellsC(span: seq<char>)
    requires |span| >= 1 && span[0] == 'c' && IdentifierType(span) != Identifier
    ensures span == KeywordSpelling(IdentifierType(span))
  {
    if span[1] == 'h' {
      SpellsLeaf2(span, "ar", Char);
    } else {
      assert span[..4] == [span[0], span[1], span[2], span[3]];
    }
  }

  lemma SpellsF(span: seq<char>)
    requires |span| >= 1 && span[0] == 'f' && IdentifierType(span) != Identifier
    ensures span == KeywordSpelling(IdentifierType(span))
  {
    match span[1]
    case 'a' => SpellsLeaf2(span, "lse", False);
    case 'n' => SpellsLeaf2(span, "", Fn);
    case 'o' => SpellsLeaf2(span, "r", For);
    case '3' => SpellsLeaf2(span, "2", F32);
    case '6' => SpellsLeaf2(span, "4", F64);
  }

  lemma SpellsI(span: seq<char>)
    requires |span| >= 1 && span[0] == 'i' && IdentifierType(span) != Identifier
    ensures span == KeywordSpelling(IdentifierType(span))
  {
    match span[1]
    case 'f' => SpellsLeaf2(span, "", If);
    case 'n' => SpellsLeaf2(span, "", In);
    case '8' => SpellsLeaf2(span, "", I8);
    case '1' => SpellsLeaf2(span, "6", I16);
    case '3' => SpellsLeaf2(span, "2", I32);
    case '6' => SpellsLeaf2(span, "4", I64);
  }

  lemma SpellsM(span: seq<char>)
    requires |span| >= 1 && span[0] == 'm' && IdentifierType(span) != Identifier
    ensures span == KeywordSpelling(IdentifierType(span))
  {
    if span[1] == 'a' {
      SpellsLeaf2(span, "tch", Match);
    } else {
      SpellsLeaf2(span, "t", Mut);
    }
  }

  lemma SpellsU(span: seq<char>)
    requires |span| >= 1 && span[0] == 'u' && IdentifierType(span) != Identifier
    ensures span == KeywordSpelling(IdentifierType(span))
  {
    match span[1]
    case '8' => SpellsLeaf2(span, "", U8);
    case '1' => SpellsLeaf2(span, "6", U16);
    case '3' => SpellsLeaf2(span, "2", U32);
    case '6' => SpellsLeaf2(span, "4", U64);
  }

  // The trie reaches each keyword from its spelling, a few keywords at a
  // time.

  lemma ReachesDoElseLoop(k: TokenKind)
    requires k in {Do, Else, Loop}
    ensures |KeywordSpelling(k)| >= 1 && IdentifierType(KeywordSpelling(k)) == k
  {
  }

  lemma ReachesNullReturnString(k: TokenKind)
    requires k in {Null, Return, String}
    ensures |KeywordSpelling(k)| >= 1 && IdentifierType(KeywordSpelling(k)) == k
  {
  }

  lemma ReachesTrueVoidWhile(k: TokenKind)
    requires k in {True, Void, While}
    ensures |KeywordSpelling(k)| >= 1 && IdentifierType(KeywordSpelling(k)) == k
  {
  }

  lemma ReachesBM(k: TokenKind)
    requires k in {Bool, Break, Match, Mut}
    ensures |KeywordSpelling(k)| >= 1 && IdentifierType(KeywordSpelling(k)) == k
  {
  }

  lemma ReachesC(k: TokenKind)
    requires k in {Char, Const, Continue}
    ensures |KeywordSpelling(k)| >= 1 && IdentifierType(KeywordSpelling(k)) == k
  {
  }

  lemma ReachesF(k: TokenKind)
    requires k in {False, Fn, For, F32, F64}
    ensures |KeywordSpelling(k)| >= 1 && IdentifierType(KeywordSpelling(k)) == k
  {
  }

  lemma ReachesI(k: TokenKind)
    requires k in {If, In, I8, I16, I32, I64}
    ensures |KeywordSpelling(k)| >= 1 && IdentifierType(KeywordSpelling(k)) == k
  {
  }

  lemma ReachesU(k: TokenKind)
    requires k in {U8, U16, U32, U64}
    ensures |KeywordSpelling(k)| >= 1 && IdentifierType(KeywordSpelling(k)) == k
  {
  }

  /** The trie recognises every keyword from its exact spelling. */
  lemma KeywordsAreRecognised(k: TokenKind)
    requires IsKeywordKind(k)
    ensures |KeywordSpelling(k)| >= 1 && IdentifierType(KeywordSpelling(k)) == k
  {
    if k in {Do, Else, Loop} {
      ReachesDoElseLoop(k);
    } else if k in {Null, Return, String} {
      ReachesNullReturnString(k);
    } else if k in {True, Void, While} {
      ReachesTrueVoidWhile(k);
    } else if k in {Bool, Break, Match, Mut} {
      ReachesBM(k);
    } else if k in {Char, Const, Continue} {
      ReachesC(k);
    } else if k in {False, Fn, For, F32, F64} {
      ReachesF(k);
    } else if k in {If, In, I8, I16, I32, I64} {
      ReachesI(k);
    } else {
      ReachesU(k);
    }
  }

  /** A span the trie classifies as a keyword is that keyword's spelling. */
  lemma KeywordsAreExact(span: seq<char>)
    requires |span| >= 1 && IdentifierType(span) != Identifier
    ensures span == KeywordSpelling(IdentifierType(span))
  {
    match span[0]
    case 'b' => SpellsB(span);
    case 'c' => SpellsC(span);
    case 'd' => ExactLeaf(span, "o", Do);
    case 'e' => ExactLeaf(span, "lse", Else);
    case 'f' => SpellsF(span);
    case 'i' => SpellsI(span);
    case 'l' => ExactLeaf(span, "oop", Loop);
    case 'm' => SpellsM(span);
    case 'n' => ExactLeaf(span, "ull", Null);
    case 'r' => ExactLeaf(span, "eturn", Return);
    case 's' => ExactLeaf(span, "tring", String);
    case 't' => ExactLeaf(span, "rue", True);
    case 'u' => SpellsU(span);
    case 'v' => ExactLeaf(span, "oid", Void);
    case 'w' => ExactLeaf(span, "hile", While);
  }

  /** The trie is exact-match keyword lookup: a span is classified as the
      keyword `k` iff its length and characters equal the spelling of `k`.
      Prefixes, extensions and other near misses are not keywords. */
  lemma IdentifierTypeIsExact(span: seq<char>, k: TokenKind)
    requires |span| >= 1 && IsKeywordKind(k)
    ensures IdentifierType(span) == k <==> span == KeywordSpelling(k)
  {
    if span == KeywordSpelling(k) {
      KeywordsAreRecognised(k);
    }
    if IdentifierType(span) == k {
      KeywordsAreExact(span);
    }
  }

  /** Consequently a span is an identifier iff it spells no keyword. */
  lemma IdentifierIffNoKeyword(span: seq<char>)
    requires |span| >= 1
    ensures IdentifierType(span) == Identifier <==>
              forall k :: IsKeywordKind(k) ==> span != KeywordSpelling(k)
  {
    if IdentifierType(span) != Identifier {
      IdentifierTypeIsExact(span, IdentifierType(span));
    } else {
      forall k | IsKeywordKind(k) ensures span != KeywordSpelling(k) {
        IdentifierTypeIsExact(span, k);
      }
    }
  }

  /** Near misses that share a prefix with a keyword stay identifiers. */
  lemma NearMissesOfFor()
    ensures IdentifierType("for") == For
    ensures IdentifierType("f") == Identifier && IdentifierType("fo") == Identifier
    ensures IdentifierType("forge") == Identifier && IdentifierType("fort") == Identifier
  {
    assert IdentifierType("for") == For;
    assert IdentifierType("forge") == Identifier;
    assert IdentifierType("fort") == Identifier;
  }

  lemma NearMissesOfConstAndI()
    ensures IdentifierType("const") == Const && IdentifierType("i64") == I64
    ensures IdentifierType("constant") == Identifier && IdentifierType("con") == Identifier
    ensures IdentifierType("i") == Identifier && IdentifierType("i128") == Identifier
  {
    assert IdentifierType("const") == Const;
    assert IdentifierType("constant") == Identifier;
    assert IdentifierType("i128") == Identifier;
  }
}
