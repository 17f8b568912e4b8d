/**
 * The SQL tokenizer (mysqlnd_qc_get_token), on ASCII input.
 *
 * The table of keywords is a parameter; its roughly five hundred rows are data.
 */
module Lexer {
  import opened Wrappers
  import opened Text

  /** Token codes: the ones with a treatment of their own, and the other keywords. */
  datatype Code =
    | NoMore | Comment | Unknown
    | Semicolon | Dot | Comma | Star | Eq | Plus | Minus | Mod | Div | BracketOpen | BracketClose | Xor | QuestionMark
    | Not | Ne | Lt | Le | ShiftLeft | Gt | Ge | ShiftRight | BitOr | Or | BitAnd | And | SessionVar | GlobalVar
    | Str | Num | Ident
    | Select | From | Where | Dual | Keyword(id: nat)

  /** A number carries the text it is converted from. */
  datatype Token = Token(code: Code, value: Option<string>)

  datatype StaticToken = StaticToken(name: string, code: Code, mustBeEscaped: bool)

  type Keywords = seq<StaticToken>

  datatype Lexed = Lexed(token: Token, rest: string)

  const NO_MORE := Token(NoMore, None)
  const EMPTY_IDENT := Token(Ident, Some(""))

  // ---- keywords ----

  function Lower(c: char): char {
    if 'A' <= c <= 'Z' then (c as int + 32) as char else c
  }

  /** strcasecmp(a, b) == 0 */
  predicate SameIgnoringCase(a: string, b: string) {
    |a| == |b| && forall i :: 0 <= i < |a| ==> Lower(a[i]) == Lower(b[i])
  }

  /** The first row with that name, from row `i` on. */
  function Lookup(keywords: Keywords, word: string, i: nat): Option<StaticToken>
    requires i <= |keywords|
    decreases |keywords| - i
  {
    if i == |keywords| then None
    else if SameIgnoringCase(word, keywords[i].name) then Some(keywords[i])
    else Lookup(keywords, word, i + 1)
  }

  ghost predicate Named(keywords: Keywords) {
    forall row :: row in keywords ==> row.name != ""
  }

  // ---- the token at the head of a string that does not start with a blank ----

  function Single(s: string, code: Code): Lexed
    requires s != ""
  {
    Lexed(Token(code, None), s[1..])
  }

  /** One token if the character is followed by `second`, another one if not. */
  function Double(s: string, second: char, both: Token, alone: Token): (r: Lexed)
    requires s != ""
    ensures (r.rest == s[1..] && r.token == alone) || (|s| > 1 && r.rest == s[2..] && r.token == both)
  {
    if |s| > 1 && s[1] == second then Lexed(both, s[2..]) else Lexed(alone, s[1..])
  }

  predicate IsPunctuation(c: char) {
    || c == '\\' || c == ';' || c == '.' || c == ',' || c == '*' || c == '=' || c == '+' || c == '-' || c == '%'
    || c == '/' || c == '(' || c == ')' || c == '^' || c == '?' || c == '!' || c == '<' || c == '>' || c == '|'
    || c == '&' || c == '@'
  }

  function Punctuation(s: string): Lexed
    requires s != "" && IsPunctuation(s[0])
  {
    match s[0]
    case '\\' => Lexed(Token(Unknown, None), if |s| > 1 then s[2..] else "")
    case ';' => Single(s, Semicolon)
    case '.' => Single(s, Dot)
    case ',' => Single(s, Comma)
    case '*' => Single(s, Star)
    case '=' => Single(s, Eq)
    case '+' => Single(s, Plus)
    case '-' => Single(s, Minus)
    case '%' => Single(s, Mod)
    case '/' => Single(s, Div)
    case '(' => Single(s, BracketOpen)
    case ')' => Single(s, BracketClose)
    case '^' => Single(s, Xor)
    case '?' => Single(s, QuestionMark)
    case '!' => Double(s, '=', Token(Ne, Some("!=")), Token(Not, Some("!")))
    case '<' =>
      Double(s, '=', Token(Le, Some("<=")),
             // only the first character of a shift is consumed
             if |s| > 1 && s[1] == '<' then Token(ShiftLeft, Some("<<")) else Token(Lt, Some("<")))
    case '>' =>
      Double(s, '=', Token(Ge, Some(">=")),
             // the source compares with '<' here too
             if |s| > 1 && s[1] == '<' then Token(ShiftRight, Some(">>")) else Token(Gt, Some(">")))
    case '|' => Double(s, '|', Token(Or, Some("OR")), Token(BitOr, Some("|")))
    case '&' => Double(s, '&', Token(And, Some("AND")), Token(BitAnd, Some("&")))
    case _ => Double(s, '@', Token(GlobalVar, Some("@")), Token(SessionVar, Some("@")))
  }

  predicate IsQuote(c: char) {
    c == '"' || c == '\''
  }

  /** The length of a string body: up to the quote that does not follow a backslash. */
  function StringRun(quote: char, previous: char, s: string): (n: nat)
    ensures n <= |s|
    decreases |s|
  {
    if s != "" && (s[0] != quote || previous == '\\') then 1 + StringRun(quote, s[0], s[1..]) else 0
  }

  function StringLiteral(s: string): Lexed
    requires s != ""
  {
    if |s| == 1 then Lexed(NO_MORE, "")
    else
      var n := 1 + StringRun(s[0], s[0], s[1..]);
      Lexed(Token(Str, Some(s[1..n])), if n < |s| then s[n + 1..] else "")
  }

  function Number(s: string): Lexed {
    var n := Run(IsNumeric, s);
    Lexed(Token(Num, Some(s[..n])), s[n..])
  }

  predicate StartsWith(s: string, c: char) {
    s != "" && s[0] == c
  }

  /** The token of a word, and what follows it; the closing tick of a ticked keyword is left behind. */
  function Word(keywords: Keywords, word: string, after: string, ticked: bool): Lexed {
    match Lookup(keywords, word, 0)
    case Some(row) => Lexed(Token(row.code, Some(if row.mustBeEscaped then row.name else word)), after)
    case None => Lexed(Token(Ident, Some(word)), if ticked && StartsWith(after, '`') then after[1..] else after)
  }

  function Identifier(keywords: Keywords, s: string): Lexed {
    var ticked := StartsWith(s, '`');
    var t := if ticked then s[1..] else s;
    var n := Run(IsWord, t);
    Word(keywords, t[..n], t[n..], ticked)
  }

  function Head(keywords: Keywords, s: string): Lexed {
    if StartsBlockComment(s) then Lexed(Token(Comment, Some(BlockBody(s))), AfterBlock(s))
    else if StartsLineComment(s) then Lexed(Token(Comment, Some(LineBody(s))), AfterLine(s))
    else if s != "" && IsPunctuation(s[0]) then Punctuation(s)
    else if s != "" && IsQuote(s[0]) then StringLiteral(s)
    else if s != "" && IsNumeric(s[0]) then Number(s)
    else Identifier(keywords, s)
  }

  /** mysqlnd_qc_get_token: the next token, and what is left of the query. */
  function GetToken(keywords: Keywords, s: string): Lexed {
    if s == "" then Lexed(NO_MORE, "") else Head(keywords, SkipBlanks(s))
  }

  // ---- progress ----

  /** The characters a token can start with. */
  predicate StartsToken(c: char) {
    IsBlank(c) || IsPunctuation(c) || IsQuote(c) || IsWord(c) || c == '`'
  }

  predicate IsSuffix(rest: string, s: string) {
    |rest| <= |s| && s[|s| - |rest|..] == rest
  }

  /** Something was taken off the front. */
  predicate Shorter(rest: string, s: string) {
    IsSuffix(rest, s) && |rest| < |s|
  }

  lemma DropIsShorter(s: string, n: nat)
    requires 0 < n <= |s|
    ensures Shorter(s[n..], s)
  {
  }

  lemma CommentProgress(s: string)
    ensures StartsBlockComment(s) ==> Shorter(AfterBlock(s), s)
    ensures StartsLineComment(s) ==> Shorter(AfterLine(s), s)
  {
    if StartsBlockComment(s) {
      DropIsShorter(s, |s| - |AfterBlock(s)|);
    } else if StartsLineComment(s) {
      DropIsShorter(s, |s| - |AfterLine(s)|);
    }
  }

  lemma PunctuationProgress(s: string)
    requires s != "" && IsPunctuation(s[0])
    ensures Shorter(Punctuation(s).rest, s) && Punctuation(s).token.code != NoMore
  {
    PunctuationDrops(s);
    DropIsShorter(s, |s| - |Punctuation(s).rest|);
  }

  lemma PunctuationDrops(s: string)
    requires s != "" && IsPunctuation(s[0])
    ensures Punctuation(s).rest == s[1..] || (|s| > 1 && Punctuation(s).rest == s[2..])
    ensures Punctuation(s).token.code != NoMore
  {
  }

  lemma LiteralProgress(s: string)
    requires s != ""
    ensures IsQuote(s[0]) ==> Shorter(StringLiteral(s).rest, s)
    ensures IsNumeric(s[0]) ==> Shorter(Number(s).rest, s)
  {
  }

  lemma SuffixOfSuffix(a: string, b: string, c: string)
    requires IsSuffix(a, b) && IsSuffix(b, c)
    ensures IsSuffix(a, c)
  {
    assert c[|c| - |b|..][|b| - |a|..] == c[|c| - |a|..];
  }

  lemma IdentifierProgress(keywords: Keywords, s: string)
    ensures IsSuffix(Identifier(keywords, s).rest, s)
    ensures Identifier(keywords, s).rest == s <==> s == "" || !(IsWord(s[0]) || s[0] == '`')
  {
    if StartsWith(s, '`') {
      TickedWord(keywords, s);
      var t := s[1..];
      var n := Run(IsWord, t);
      WordProgress(keywords, t[..n], t[n..], true);
      assert t[n..] == s[n + 1..];
      SuffixOfSuffix(Identifier(keywords, s).rest, t[n..], s);
    } else {
      BareWord(keywords, s);
      WordProgress(keywords, s[..Run(IsWord, s)], s[Run(IsWord, s)..], false);
    }
  }

  lemma BareWord(keywords: Keywords, s: string)
    requires !StartsWith(s, '`')
    ensures Identifier(keywords, s) == Word(keywords, s[..Run(IsWord, s)], s[Run(IsWord, s)..], false)
  {
  }

  lemma TickedWord(keywords: Keywords, s: string)
    requires StartsWith(s, '`')
    ensures Identifier(keywords, s) ==
            Word(keywords, s[1..][..Run(IsWord, s[1..])], s[1..][Run(IsWord, s[1..])..], true)
  {
  }

  lemma WordProgress(keywords: Keywords, word: string, after: string, ticked: bool)
    ensures IsSuffix(Word(keywords, word, after, ticked).rest, after)
    ensures !ticked ==> Word(keywords, word, after, ticked).rest == after
  {
  }

  /** A head is taken off unless the string starts with a character no token starts with. */
  lemma HeadProgress(keywords: Keywords, s: string)
    ensures IsSuffix(Head(keywords, s).rest, s)
    ensures s != "" && !IsBlank(s[0]) ==> (Head(keywords, s).rest == s <==> !StartsToken(s[0]))
  {
    CommentProgress(s);
    IdentifierProgress(keywords, s);
    if s != "" {
      LiteralProgress(s);
      if IsPunctuation(s[0]) {
        PunctuationProgress(s);
      }
    }
  }

  /**
   * Each call takes a prefix off the query, and it is empty exactly when the next byte of a
   * non-empty query is none that a token can start with.
   */
  lemma GetTokenProgress(keywords: Keywords, s: string)
    ensures IsSuffix(GetToken(keywords, s).rest, s)
    ensures s != "" ==> (GetToken(keywords, s).rest == s <==> !StartsToken(s[0]))
  {
    if s != "" {
      HeadProgress(keywords, SkipBlanks(s));
      SuffixAfterBlanks(s, Head(keywords, SkipBlanks(s)).rest);
    }
  }

  lemma SuffixAfterBlanks(s: string, rest: string)
    requires s != "" && IsSuffix(rest, SkipBlanks(s))
    requires SkipBlanks(s) != "" ==> (rest == SkipBlanks(s) <==> !StartsToken(SkipBlanks(s)[0]))
    ensures IsSuffix(rest, s) && (rest == s <==> !StartsToken(s[0]))
  {
    SuffixOfSuffix(rest, SkipBlanks(s), s);
  }

  /** In front of such a byte the tokenizer returns an empty identifier, over and over. */
  lemma StuckReturnsEmptyIdent(keywords: Keywords, s: string)
    requires s != "" && !StartsToken(s[0]) && Named(keywords)
    ensures GetToken(keywords, s) == Lexed(EMPTY_IDENT, s)
  {
    assert Run(IsWord, s) == 0 && Run(IsBlank, s) == 0;
    LookupOfEmpty(keywords, 0);
  }

  lemma {:induction false} LookupOfEmpty(keywords: Keywords, i: nat)
    requires i <= |keywords| && Named(keywords)
    ensures Lookup(keywords, "", i) == None
    decreases |keywords| - i
  {
    if i < |keywords| {
      assert keywords[i] in keywords;
      LookupOfEmpty(keywords, i + 1);
    }
  }

  // ---- the tokens of a whole query ----

  /** No token boundary of the query lies before a byte the tokenizer cannot get past. */
  predicate Lexable(keywords: Keywords, s: string)
    decreases |s|
  {
    s == "" ||
    (&& StartsToken(s[0])
     && (GetTokenProgress(keywords, s);
         Lexable(keywords, GetToken(keywords, s).rest)))
  }

  /** What is left of the query after `k` calls of get_token. */
  function Left(keywords: Keywords, s: string, k: nat): string
    decreases k
  {
    if k == 0 then s else Left(keywords, GetToken(keywords, s).rest, k - 1)
  }

  lemma {:induction false} LexableIsConsumed(keywords: Keywords, s: string) returns (k: nat)
    requires Lexable(keywords, s)
    ensures Left(keywords, s, k) == ""
    decreases |s|
  {
    k := 0;
    if s != "" {
      GetTokenProgress(keywords, s);
      k := LexableIsConsumed(keywords, GetToken(keywords, s).rest);
      k := k + 1;
    }
  }

  lemma LexableStep(keywords: Keywords, s: string)
    requires s != "" && StartsToken(s[0]) && Lexable(keywords, GetToken(keywords, s).rest)
    ensures Lexable(keywords, s)
  {
  }

  lemma {:induction false} ConsumedIsLexable(keywords: Keywords, s: string, k: nat)
    requires Left(keywords, s, k) == ""
    ensures Lexable(keywords, s)
    decreases k
  {
    if s != "" {
      if StartsToken(s[0]) {
        ConsumedIsLexable(keywords, GetToken(keywords, s).rest, k - 1);
        LexableStep(keywords, s);
      } else {
        StuckStays(keywords, s, k);
      }
    }
  }

  lemma {:induction false} StuckStays(keywords: Keywords, s: string, k: nat)
    requires s != "" && !StartsToken(s[0])
    ensures Left(keywords, s, k) == s
    decreases k
  {
    if k > 0 {
      GetTokenProgress(keywords, s);
      StuckStays(keywords, s, k - 1);
    }
  }

  /** A query is used up by some number of calls if and only if every token boundary is before a token. */
  lemma LexableIffConsumed(keywords: Keywords, s: string)
    ensures Lexable(keywords, s) <==> exists k: nat :: Left(keywords, s, k) == ""
  {
    if Lexable(keywords, s) {
      var k := LexableIsConsumed(keywords, s);
    } else if k: nat :| Left(keywords, s, k) == "" {
      ConsumedIsLexable(keywords, s, k);
    }
  }

  /** No word of the table reads as the end of the query. */
  ghost predicate NoEndWord(keywords: Keywords) {
    forall row :: row in keywords ==> row.code != NoMore
  }

  lemma {:induction false} LookupIsInTable(keywords: Keywords, word: string, i: nat)
    requires i <= |keywords|
    ensures Lookup(keywords, word, i).Some? ==> Lookup(keywords, word, i).value in keywords
    decreases |keywords| - i
  {
    if i < |keywords| {
      LookupIsInTable(keywords, word, i + 1);
    }
  }

  lemma WordIsNoEnd(keywords: Keywords, word: string, after: string, ticked: bool)
    requires NoEndWord(keywords)
    ensures Word(keywords, word, after, ticked).token.code != NoMore
  {
    LookupIsInTable(keywords, word, 0);
  }

  lemma IdentifierIsNoEnd(keywords: Keywords, s: string)
    requires NoEndWord(keywords)
    ensures Identifier(keywords, s).token.code != NoMore
  {
    var ticked := StartsWith(s, '`');
    var t := if ticked then s[1..] else s;
    WordIsNoEnd(keywords, t[..Run(IsWord, t)], t[Run(IsWord, t)..], ticked);
  }

  /** Only with nothing left, now or right after it, does get_token say that there is no more. */
  lemma EndIsEnd(keywords: Keywords, s: string)
    requires NoEndWord(keywords)
    ensures GetToken(keywords, s).token.code == NoMore ==> GetToken(keywords, s).rest == ""
    ensures s == "" ==> GetToken(keywords, s).token.code == NoMore
  {
    if s != "" {
      HeadEnd(keywords, SkipBlanks(s));
    }
  }

  lemma HeadEnd(keywords: Keywords, t: string)
    requires NoEndWord(keywords)
    ensures Head(keywords, t).token.code == NoMore ==> Head(keywords, t).rest == ""
  {
    IdentifierIsNoEnd(keywords, t);
    if t != "" && IsPunctuation(t[0]) {
      PunctuationDrops(t);
    }
  }

  /** A loop that calls get_token until there is no more ends if and only if the query is lexable. */
  lemma LoopEndsIffLexable(keywords: Keywords, s: string)
    requires NoEndWord(keywords)
    ensures Lexable(keywords, s) <==> exists k: nat :: GetToken(keywords, Left(keywords, s, k)).token.code == NoMore
  {
    if Lexable(keywords, s) {
      var k := LexableIsConsumed(keywords, s);
      EndIsEnd(keywords, Left(keywords, s, k));
    } else if k: nat :| GetToken(keywords, Left(keywords, s, k)).token.code == NoMore {
      EndIsEnd(keywords, Left(keywords, s, k));
      OneMore(keywords, s, k);
      ConsumedIsLexable(keywords, s, k + 1);
    }
  }

  lemma {:induction false} OneMore(keywords: Keywords, s: string, k: nat)
    ensures Left(keywords, s, k + 1) == GetToken(keywords, Left(keywords, s, k)).rest
    decreases k
  {
    if k > 0 {
      OneMore(keywords, GetToken(keywords, s).rest, k - 1);
    }
  }

  /** The calls of get_token up to the end of the query; a stuck tokenizer is given up after one more call. */
  function Tokens(keywords: Keywords, s: string): seq<Token>
    decreases |s|
  {
    if s == "" then []
    else
      var lexed := GetToken(keywords, s);
      [lexed.token] + if |lexed.rest| < |s| then Tokens(keywords, lexed.rest) else []
  }
}
