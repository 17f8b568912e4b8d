/** Normalisation is blind to literals: a string or a number can be replaced without a trace. */
module LiteralBlind {
  import opened Wrappers
  import opened Text
  import opened Lexer
  import opened Normalizer

  // ---- rendering ignores the values of literals ----

  function EraseToken(token: Token): Token {
    if token.code == Str || token.code == Num then Token(Str, None) else token
  }

  function Erase(tokens: seq<Token>): seq<Token> {
    if tokens == [] then [] else [EraseToken(tokens[0])] + Erase(tokens[1..])
  }

  lemma {:induction false} RenderIgnoresLiterals(out: string, tokens: seq<Token>)
    ensures Render(out, tokens) == Render(out, Erase(tokens))
    decreases |tokens|
  {
    if tokens != [] {
      RenderIgnoresLiterals(RenderToken(out, tokens[0]), tokens[1..]);
      assert Erase(tokens)[1..] == Erase(tokens[1..]);
    }
  }

  /** Queries with the same tokens, literals aside, have the same normalised text. */
  lemma NormalizedOfErased(keywords: Keywords, query: string, query': string)
    requires Erase(Tokens(keywords, query)) == Erase(Tokens(keywords, query'))
    ensures Normalized(keywords, query) == Normalized(keywords, query')
  {
    RenderIgnoresLiterals("", Tokens(keywords, query));
    RenderIgnoresLiterals("", Tokens(keywords, query'));
  }

  // ---- text up to a literal is read the same, whatever the literal ----

  predicate StartsLiteral(s: string) {
    s != "" && (IsQuote(s[0]) || IsDigit(s[0]))
  }

  /** Two texts that start with literals of one kind: strings, in whatever quotes, or numbers. */
  predicate Alike(x: string, y: string) {
    StartsLiteral(x) && StartsLiteral(y) && IsDigit(x[0]) == IsDigit(y[0])
  }

  lemma {:induction false} RunSwap(p: char -> bool, a: string, x: string, y: string)
    requires x != "" && y != "" && p(x[0]) == p(y[0]) && Run(p, a + x) <= |a|
    ensures Run(p, a + y) == Run(p, a + x)
    decreases |a|
  {
    if a == "" {
      assert a + x == x && a + y == y;
    } else {
      assert (a + x)[1..] == a[1..] + x && (a + y)[1..] == a[1..] + y;
      if p(a[0]) {
        RunSwap(p, a[1..], x, y);
      }
    }
  }

  lemma {:induction false} CommentRunSwap(a: string, x: string, y: string)
    requires CommentRun(a + x) + 2 <= |a|
    ensures CommentRun(a + y) == CommentRun(a + x)
    decreases |a|
  {
    assert (a + x)[1..] == a[1..] + x && (a + y)[1..] == a[1..] + y;
    if CommentRun(a + x) > 0 {
      CommentRunSwap(a[1..], x, y);
    }
  }

  lemma {:induction false} StringRunSwap(quote: char, previous: char, a: string, x: string, y: string)
    requires StringRun(quote, previous, a + x) < |a|
    ensures StringRun(quote, previous, a + y) == StringRun(quote, previous, a + x)
    decreases |a|
  {
    assert (a + x)[1..] == a[1..] + x && (a + y)[1..] == a[1..] + y;
    if StringRun(quote, previous, a + x) > 0 {
      StringRunSwap(quote, a[0], a[1..], x, y);
    }
  }

  /** The part of `a` that a token at the head of `a + x` leaves. */
  function LeftOf(a: string, x: string, rest: string): string
    requires |x| <= |rest| <= |a| + |x|
  {
    a[|a| + |x| - |rest|..]
  }

  /** `lexed` and `lexed'` are the same token, with the rest of `a` before `x` and `y`. */
  predicate SameUpTo(a: string, x: string, y: string, lexed: Lexed, lexed': Lexed)
    requires |x| <= |lexed.rest| <= |a| + |x|
  {
    var b := LeftOf(a, x, lexed.rest);
    lexed == Lexed(lexed.token, b + x) && lexed' == Lexed(lexed.token, b + y)
  }

  lemma SameUpToIs(a: string, x: string, y: string, lexed: Lexed, lexed': Lexed, k: nat)
    requires k <= |a| && lexed == Lexed(lexed.token, a[k..] + x) && lexed' == Lexed(lexed.token, a[k..] + y)
    ensures |x| <= |lexed.rest| <= |a| + |x| && SameUpTo(a, x, y, lexed, lexed')
  {
  }

  lemma DropSwap(a: string, x: string, n: nat)
    requires n <= |a|
    ensures (a + x)[n..] == a[n..] + x && (a + x)[..n] == a[..n]
  {
  }

  lemma CommentStartSwap(a: string, x: string, y: string)
    requires a != "" && Alike(x, y)
    ensures StartsBlockComment(a + y) <==> StartsBlockComment(a + x)
    ensures StartsLineComment(a + y) <==> StartsLineComment(a + x)
    ensures StartsBlockComment(a + x) || StartsLineComment(a + x) ==> |a| > 1
  {
    assert (a + x)[1] == (if |a| > 1 then a[1] else x[0]) && (a + y)[1] == (if |a| > 1 then a[1] else y[0]);
  }

  function BlockLexed(s: string): Lexed
    requires StartsBlockComment(s)
  {
    Lexed(Token(Comment, Some(BlockBody(s))), AfterBlock(s))
  }

  function LineLexed(s: string): Lexed
    requires StartsLineComment(s)
  {
    Lexed(Token(Comment, Some(LineBody(s))), AfterLine(s))
  }

  lemma BodySwap(a: string, x: string, n: nat)
    requires |a| > 1 && 2 + n <= |a|
    ensures (a + x)[2..2 + n] == a[2..2 + n]
  {
  }

  /** A block comment that the query ends in; its last byte is left over. */
  predicate OpenComment(s: string) {
    StartsBlockComment(s) && |s| - 2 - CommentRun(s[2..]) <= 1
  }

  lemma ClosedBlock(a: string, x: string, n: nat)
    requires |a| > 1 && StartsBlockComment(a + x) && CommentRun(a[2..] + x) == n && n + 4 <= |a|
    ensures BlockLexed(a + x) == Lexed(Token(Comment, Some(a[2..2 + n])), a[n + 4..] + x)
  {
    DropSwap(a, x, 2);
    DropSwap(a, x, n + 4);
    BodySwap(a, x, n);
  }

  lemma BlockLength(s: string)
    requires StartsBlockComment(s) && !OpenComment(s)
    ensures |AfterBlock(s)| == |s| - 4 - CommentRun(s[2..])
  {
  }

  lemma BlockRun(a: string, x: string, y: string)
    requires |a| > 1 && StartsBlockComment(a + x) && |AfterBlock(a + x)| >= |x| && !OpenComment(a + x)
    ensures CommentRun(a[2..] + y) == CommentRun(a[2..] + x) <= |a| - 4
  {
    DropSwap(a, x, 2);
    BlockLength(a + x);
    CommentRunSwap(a[2..], x, y);
  }

  lemma BlockSwap(a: string, x: string, y: string)
    requires |a| > 1 && StartsBlockComment(a + x) && StartsBlockComment(a + y)
    requires |AfterBlock(a + x)| >= |x| && !OpenComment(a + x)
    ensures |AfterBlock(a + x)| <= |a| + |x| && SameUpTo(a, x, y, BlockLexed(a + x), BlockLexed(a + y))
  {
    BlockRun(a, x, y);
    BlockSwapAt(a, x, y, CommentRun(a[2..] + x));
  }

  lemma BlockSwapAt(a: string, x: string, y: string, n: nat)
    requires |a| > 1 && StartsBlockComment(a + x) && StartsBlockComment(a + y) && n + 4 <= |a|
    requires CommentRun(a[2..] + x) == n && CommentRun(a[2..] + y) == n
    ensures |x| <= |AfterBlock(a + x)| <= |a| + |x| && SameUpTo(a, x, y, BlockLexed(a + x), BlockLexed(a + y))
  {
    ClosedBlock(a, x, n);
    ClosedBlock(a, y, n);
    SameUpToIs(a, x, y, BlockLexed(a + x), BlockLexed(a + y), n + 4);
  }

  lemma ClosedLine(a: string, x: string, n: nat)
    requires |a| > 1 && StartsLineComment(a + x) && Run(NotNewline, a[2..] + x) == n && n + 3 <= |a|
    ensures LineLexed(a + x) == Lexed(Token(Comment, Some(a[2..2 + n])), a[n + 3..] + x)
  {
    DropSwap(a, x, 2);
    DropSwap(a, x, n + 3);
    BodySwap(a, x, n);
  }

  lemma LineLength(s: string)
    requires StartsLineComment(s) && AfterLine(s) != ""
    ensures |AfterLine(s)| == |s| - 3 - Run(NotNewline, s[2..])
  {
  }

  lemma LineRun(a: string, x: string, y: string)
    requires |a| > 1 && Alike(x, y) && StartsLineComment(a + x) && |AfterLine(a + x)| >= |x|
    ensures Run(NotNewline, a[2..] + y) == Run(NotNewline, a[2..] + x) <= |a| - 3
  {
    DropSwap(a, x, 2);
    LineLength(a + x);
    RunSwap(NotNewline, a[2..], x, y);
  }

  lemma LineSwap(a: string, x: string, y: string)
    requires |a| > 1 && Alike(x, y) && StartsLineComment(a + x) && StartsLineComment(a + y) && |AfterLine(a + x)| >= |x|
    ensures |AfterLine(a + x)| <= |a| + |x| && SameUpTo(a, x, y, LineLexed(a + x), LineLexed(a + y))
  {
    LineRun(a, x, y);
    LineSwapAt(a, x, y, Run(NotNewline, a[2..] + x));
  }

  lemma LineSwapAt(a: string, x: string, y: string, n: nat)
    requires |a| > 1 && StartsLineComment(a + x) && StartsLineComment(a + y) && n + 3 <= |a|
    requires Run(NotNewline, a[2..] + x) == n && Run(NotNewline, a[2..] + y) == n
    ensures |x| <= |AfterLine(a + x)| <= |a| + |x| && SameUpTo(a, x, y, LineLexed(a + x), LineLexed(a + y))
  {
    ClosedLine(a, x, n);
    ClosedLine(a, y, n);
    SameUpToIs(a, x, y, LineLexed(a + x), LineLexed(a + y), n + 3);
  }

  lemma SecondSwap(a: string, x: string, y: string, second: char)
    requires a != "" && Alike(x, y) && !IsQuote(second) && !IsDigit(second)
    ensures (|a + x| > 1 && (a + x)[1] == second) <==> (|a| > 1 && a[1] == second)
    ensures (|a + y| > 1 && (a + y)[1] == second) <==> (|a| > 1 && a[1] == second)
  {
    assert (a + x)[1] == (if |a| > 1 then a[1] else x[0]) && (a + y)[1] == (if |a| > 1 then a[1] else y[0]);
  }

  lemma DoubleSwap(a: string, x: string, y: string, second: char, both: Token, alone: Token)
    requires a != "" && Alike(x, y) && !IsQuote(second) && !IsDigit(second)
    ensures |x| <= |Double(a + x, second, both, alone).rest| <= |a| + |x|
    ensures SameUpTo(a, x, y, Double(a + x, second, both, alone), Double(a + y, second, both, alone))
  {
    SecondSwap(a, x, y, second);
    DropSwap(a, x, 1);
    DropSwap(a, y, 1);
    if |a| > 1 {
      DropSwap(a, x, 2);
      DropSwap(a, y, 2);
    }
  }

  lemma SingleSwap(a: string, x: string, y: string, code: Code)
    requires a != ""
    ensures SameUpTo(a, x, y, Single(a + x, code), Single(a + y, code))
  {
    DropSwap(a, x, 1);
    DropSwap(a, y, 1);
  }

  lemma PunctuationSwap(a: string, x: string, y: string)
    requires a != "" && IsPunctuation(a[0]) && Alike(x, y) && |Punctuation(a + x).rest| >= |x|
    ensures |Punctuation(a + x).rest| <= |a| + |x|
    ensures SameUpTo(a, x, y, Punctuation(a + x), Punctuation(a + y))
  {
    assert (a + x)[0] == a[0] && (a + y)[0] == a[0];
    match a[0]
    case '\\' =>
      DropSwap(a, x, if |a| > 1 then 2 else 1);
      DropSwap(a, y, if |a| > 1 then 2 else 1);
    case '!' => DoubleSwap(a, x, y, '=', Token(Ne, Some("!=")), Token(Not, Some("!")));
    case '<' =>
      SecondSwap(a, x, y, '<');
      DoubleSwap(a, x, y, '=', Token(Le, Some("<=")), Punctuation(if |a| > 1 && a[1] == '<' then "<<" else "<").token);
    case '>' =>
      SecondSwap(a, x, y, '<');
      DoubleSwap(a, x, y, '=', Token(Ge, Some(">=")), Punctuation(if |a| > 1 && a[1] == '<' then "><" else ">").token);
    case '|' => DoubleSwap(a, x, y, '|', Token(Or, Some("OR")), Token(BitOr, Some("|")));
    case '&' => DoubleSwap(a, x, y, '&', Token(And, Some("AND")), Token(BitAnd, Some("&")));
    case '@' => DoubleSwap(a, x, y, '@', Token(GlobalVar, Some("@")), Token(SessionVar, Some("@")));
    case _ => SingleSwap(a, x, y, Punctuation(a).token.code);
  }

  lemma ClosedString(a: string, x: string, n: nat)
    requires a != "" && StringRun(a[0], a[0], a[1..] + x) == n && n + 2 <= |a|
    ensures StringLiteral(a + x) == Lexed(Token(Str, Some(a[1..1 + n])), a[n + 2..] + x)
  {
    var s := a + x;
    DropSwap(a, x, 1);
    DropSwap(a, x, n + 2);
    assert s[0] == a[0] && s[1..1 + n] == a[1..1 + n];
  }

  lemma StringLength(s: string)
    requires s != "" && StringLiteral(s).rest != ""
    ensures |StringLiteral(s).rest| == |s| - 2 - StringRun(s[0], s[0], s[1..])
  {
  }

  lemma StringRunOfHead(a: string, x: string, y: string)
    requires a != "" && Alike(x, y) && |StringLiteral(a + x).rest| >= |x|
    ensures StringRun(a[0], a[0], a[1..] + y) == StringRun(a[0], a[0], a[1..] + x) <= |a| - 2
  {
    DropSwap(a, x, 1);
    StringLength(a + x);
    StringRunSwap(a[0], a[0], a[1..], x, y);
  }

  lemma StringSwap(a: string, x: string, y: string)
    requires a != "" && Alike(x, y) && |StringLiteral(a + x).rest| >= |x|
    ensures |StringLiteral(a + x).rest| <= |a| + |x|
    ensures SameUpTo(a, x, y, StringLiteral(a + x), StringLiteral(a + y))
  {
    StringRunOfHead(a, x, y);
    var n := StringRun(a[0], a[0], a[1..] + x);
    ClosedString(a, x, n);
    ClosedString(a, y, n);
    SameUpToIs(a, x, y, StringLiteral(a + x), StringLiteral(a + y), n + 2);
  }

  lemma NumberSwap(a: string, x: string, y: string)
    requires Alike(x, y) && |Number(a + x).rest| >= |x|
    ensures SameUpTo(a, x, y, Number(a + x), Number(a + y))
  {
    RunSwap(IsNumeric, a, x, y);
    var n := Run(IsNumeric, a + x);
    DropSwap(a, x, n);
    DropSwap(a, y, n);
  }

  lemma IdentifierSwap(keywords: Keywords, a: string, x: string, y: string)
    requires a != "" && Alike(x, y) && |Identifier(keywords, a + x).rest| >= |x|
    ensures |Identifier(keywords, a + x).rest| <= |a| + |x|
    ensures SameUpTo(a, x, y, Identifier(keywords, a + x), Identifier(keywords, a + y))
  {
    assert (a + x)[0] == a[0] && (a + y)[0] == a[0];
    if a[0] == '`' {
      DropSwap(a, x, 1);
      DropSwap(a, y, 1);
      BareIdentifierSwap(keywords, a[1..], x, y, true);
      var rest := BareIdentifier(keywords, a[1..] + x, true).rest;
      assert LeftOf(a[1..], x, rest) == LeftOf(a, x, rest);
    } else {
      BareIdentifierSwap(keywords, a, x, y, false);
    }
  }

  /** Identifier, behind the opening tick. */
  function BareIdentifier(keywords: Keywords, s: string, ticked: bool): Lexed {
    Word(keywords, s[..Run(IsWord, s)], s[Run(IsWord, s)..], ticked)
  }

  lemma BareIdentifierSwap(keywords: Keywords, a: string, x: string, y: string, ticked: bool)
    requires Alike(x, y) && |BareIdentifier(keywords, a + x, ticked).rest| >= |x|
    ensures |BareIdentifier(keywords, a + x, ticked).rest| <= |a| + |x|
    ensures SameUpTo(a, x, y, BareIdentifier(keywords, a + x, ticked), BareIdentifier(keywords, a + y, ticked))
  {
    var n := Run(IsWord, a + x);
    BareRun(keywords, a, x, y, ticked);
    BareSplit(keywords, a, x, n, ticked);
    BareSplit(keywords, a, y, n, ticked);
    WordSwap(keywords, a[..n], a[n..], x, y, ticked);
    LeftOfDrop(a, x, n, BareIdentifier(keywords, a + x, ticked).rest);
  }

  lemma BareRun(keywords: Keywords, a: string, x: string, y: string, ticked: bool)
    requires Alike(x, y) && |BareIdentifier(keywords, a + x, ticked).rest| >= |x|
    ensures Run(IsWord, a + y) == Run(IsWord, a + x) <= |a|
  {
    BareLength(keywords, a + x, ticked);
    RunSwap(IsWord, a, x, y);
  }

  lemma BareLength(keywords: Keywords, s: string, ticked: bool)
    ensures |BareIdentifier(keywords, s, ticked).rest| <= |s| - Run(IsWord, s)
  {
    WordProgress(keywords, s[..Run(IsWord, s)], s[Run(IsWord, s)..], ticked);
  }

  lemma BareSplit(keywords: Keywords, a: string, x: string, n: nat, ticked: bool)
    requires Run(IsWord, a + x) == n <= |a|
    ensures BareIdentifier(keywords, a + x, ticked) == Word(keywords, a[..n], a[n..] + x, ticked)
  {
    DropSwap(a, x, n);
  }

  lemma LeftOfDrop(a: string, x: string, n: nat, rest: string)
    requires n <= |a| && |x| <= |rest| <= |a| - n + |x|
    ensures LeftOf(a[n..], x, rest) == LeftOf(a, x, rest)
  {
  }

  lemma WordSwap(keywords: Keywords, word: string, after: string, x: string, y: string, ticked: bool)
    requires Alike(x, y)
    ensures var h, h' := Word(keywords, word, after + x, ticked), Word(keywords, word, after + y, ticked);
            |x| <= |h.rest| <= |after| + |x| && SameUpTo(after, x, y, h, h')
  {
    if after != "" {
      DropSwap(after, x, 1);
      DropSwap(after, y, 1);
    }
  }

  lemma HeadSwap(keywords: Keywords, a: string, x: string, y: string)
    requires a != "" && Alike(x, y) && |Head(keywords, a + x).rest| >= |x| && !OpenComment(a + x)
    ensures |Head(keywords, a + x).rest| <= |a| + |x|
    ensures SameUpTo(a, x, y, Head(keywords, a + x), Head(keywords, a + y))
  {
    CommentStartSwap(a, x, y);
    assert (a + x)[0] == a[0] && (a + y)[0] == a[0];
    if StartsBlockComment(a + x) {
      BlockSwap(a, x, y);
    } else if StartsLineComment(a + x) {
      LineSwap(a, x, y);
    } else if IsPunctuation(a[0]) {
      PunctuationSwap(a, x, y);
    } else if IsQuote(a[0]) {
      StringSwap(a, x, y);
    } else if IsNumeric(a[0]) {
      NumberSwap(a, x, y);
    } else {
      IdentifierSwap(keywords, a, x, y);
    }
  }

  lemma BlanksSwap(a: string, x: string, y: string)
    requires Alike(x, y)
    ensures Run(IsBlank, a + x) == Run(IsBlank, a + y) <= |a|
  {
    var n := Run(IsBlank, a + x);
    assert (a + x)[|a|] == x[0];
    RunSwap(IsBlank, a, x, y);
  }

  lemma GetTokenSwap(keywords: Keywords, a: string, x: string, y: string)
    requires a != "" && Alike(x, y) && |GetToken(keywords, a + x).rest| >= |x| && !OpenComment(SkipBlanks(a + x))
    ensures |GetToken(keywords, a + x).rest| <= |a| + |x|
    ensures SameUpTo(a, x, y, GetToken(keywords, a + x), GetToken(keywords, a + y))
  {
    BlanksSwap(a, x, y);
    var n := Run(IsBlank, a + x);
    DropSwap(a, x, n);
    DropSwap(a, y, n);
    if n == |a| {
      assert a[n..] + x == x;
      HeadProgress(keywords, x);
      assert false;
    } else {
      HeadSwap(keywords, a[n..], x, y);
      var rest := Head(keywords, a[n..] + x).rest;
      assert LeftOf(a[n..], x, rest) == LeftOf(a, x, rest);
    }
  }

  // ---- a literal at a token boundary can be replaced ----

  /**
   * The tokenizer, reading `s`, stops where `k` bytes are left. The last byte of a comment that the query
   * ends in is left over too, but it is no place for a literal.
   */
  predicate Reaches(keywords: Keywords, s: string, k: nat)
    decreases |s|
  {
    |s| == k ||
    (var rest := GetToken(keywords, s).rest;
     k <= |rest| < |s| && !(k == 1 && OpenComment(SkipBlanks(s))) && Reaches(keywords, rest, k))
  }

  lemma LongRestIsClosed(keywords: Keywords, s: string)
    requires |GetToken(keywords, s).rest| > 1
    ensures !OpenComment(SkipBlanks(s))
  {
  }

  lemma {:induction false} TokensSwap(keywords: Keywords, a: string, x: string, y: string)
    requires Alike(x, y) && Reaches(keywords, a + x, |x|)
    requires Erase(Tokens(keywords, x)) == Erase(Tokens(keywords, y))
    ensures Erase(Tokens(keywords, a + x)) == Erase(Tokens(keywords, a + y))
    decreases |a|
  {
    if a == "" {
      assert a + x == x && a + y == y;
    } else {
      var rest := GetToken(keywords, a + x).rest;
      if |rest| > 1 {
        LongRestIsClosed(keywords, a + x);
      }
      GetTokenSwap(keywords, a, x, y);
      TokensSwap(keywords, LeftOf(a, x, rest), x, y);
    }
  }

  /** The text of a string literal: a quote, a body without that quote and without a backslash, and the quote. */
  predicate IsStringLiteral(text: string) {
    |text| > 1 && IsQuote(text[0]) && text[|text| - 1] == text[0]
    && forall i :: 0 < i < |text| - 1 ==> text[i] != text[0] && text[i] != '\\'
  }

  /** The text of a number as the tokenizer reads it: digits and dots, a digit first. */
  predicate IsNumberLiteral(text: string) {
    text != "" && IsDigit(text[0]) && forall i :: 0 <= i < |text| ==> IsNumeric(text[i])
  }

  lemma {:induction false} StringRunIsBody(quote: char, previous: char, body: string, after: string)
    requires IsQuote(quote) && previous != '\\' && forall i :: 0 <= i < |body| ==> body[i] != quote && body[i] != '\\'
    ensures StringRun(quote, previous, body + [quote] + after) == |body|
    decreases |body|
  {
    if body != "" {
      assert (body + [quote] + after)[1..] == body[1..] + [quote] + after;
      StringRunIsBody(quote, body[0], body[1..], after);
    }
  }

  lemma StringIsOneToken(keywords: Keywords, text: string, after: string)
    requires IsStringLiteral(text)
    ensures GetToken(keywords, text + after) == Lexed(Token(Str, Some(text[1..|text| - 1])), after)
  {
    var body := text[1..|text| - 1];
    var s := text + after;
    assert s[1..] == body + [text[0]] + after;
    StringRunIsBody(text[0], text[0], body, after);
    assert s[1..1 + |body|] == body && s[|body| + 2..] == after;
    assert SkipBlanks(s) == s;
  }

  lemma NumberIsOneToken(keywords: Keywords, text: string, after: string)
    requires IsNumberLiteral(text) && (after == "" || !IsNumeric(after[0]))
    ensures GetToken(keywords, text + after) == Lexed(Token(Num, Some(text)), after)
  {
    var s := text + after;
    RunSplit(IsNumeric, text, after);
    assert s[..|text|] == text && s[|text|..] == after;
    assert SkipBlanks(s) == s;
  }

  lemma FirstTokenErased(keywords: Keywords, s: string, lexed: Lexed)
    requires GetToken(keywords, s) == lexed && |lexed.rest| < |s|
    ensures Erase(Tokens(keywords, s)) == [EraseToken(lexed.token)] + Erase(Tokens(keywords, lexed.rest))
  {
    assert Tokens(keywords, s)[1..] == Tokens(keywords, lexed.rest);
  }

  lemma StringErased(keywords: Keywords, text: string, after: string)
    requires IsStringLiteral(text)
    ensures StartsLiteral(text + after) && (text + after)[0] == text[0]
    ensures Erase(Tokens(keywords, text + after)) == [Token(Str, None)] + Erase(Tokens(keywords, after))
  {
    StringIsOneToken(keywords, text, after);
    FirstTokenErased(keywords, text + after, Lexed(Token(Str, Some(text[1..|text| - 1])), after));
  }

  lemma NumberErased(keywords: Keywords, text: string, after: string)
    requires IsNumberLiteral(text) && (after == "" || !IsNumeric(after[0]))
    ensures StartsLiteral(text + after) && IsDigit((text + after)[0])
    ensures Erase(Tokens(keywords, text + after)) == [Token(Str, None)] + Erase(Tokens(keywords, after))
  {
    NumberIsOneToken(keywords, text, after);
    FirstTokenErased(keywords, text + after, Lexed(Token(Num, Some(text)), after));
  }

  lemma SwapKeepsNormalized(keywords: Keywords, before: string, x: string, y: string)
    requires Alike(x, y) && Reaches(keywords, before + x, |x|)
    requires Erase(Tokens(keywords, x)) == Erase(Tokens(keywords, y))
    ensures Normalized(keywords, before + y) == Normalized(keywords, before + x)
  {
    TokensSwap(keywords, before, x, y);
    NormalizedOfErased(keywords, before + x, before + y);
  }

  /** Any string in the place of another one, at a token boundary, leaves the normalised query alone. */
  lemma StringsShareALogEntry(keywords: Keywords, before: string, text: string, text': string, after: string)
    requires IsStringLiteral(text) && IsStringLiteral(text')
    requires Reaches(keywords, before + (text + after), |text + after|)
    ensures Normalized(keywords, before + (text' + after)) == Normalized(keywords, before + (text + after))
  {
    StringErased(keywords, text, after);
    StringErased(keywords, text', after);
    SwapKeepsNormalized(keywords, before, text + after, text' + after);
  }

  /** And so does any number in the place of another one. */
  lemma NumbersShareALogEntry(keywords: Keywords, before: string, text: string, text': string, after: string)
    requires IsNumberLiteral(text) && IsNumberLiteral(text') && (after == "" || !IsNumeric(after[0]))
    requires Reaches(keywords, before + (text + after), |text + after|)
    ensures Normalized(keywords, before + (text' + after)) == Normalized(keywords, before + (text + after))
  {
    NumberErased(keywords, text, after);
    NumberErased(keywords, text', after);
    SwapKeepsNormalized(keywords, before, text + after, text' + after);
  }
}
