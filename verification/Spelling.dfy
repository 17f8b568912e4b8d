/**
 * The tokenizer against spelled-out queries: a text written item by item, each after a blank, is read
 * back as the tokens of its items.
 */
module Spelling {
  import opened Wrappers
  import opened Text
  import opened Lexer
  import opened QueryPolicy
  import opened LiteralBlind

  /** Operators and punctuation; both shifts are written as the tokenizer recognises them. */
  datatype Sign =
    | Semicolon | Dot | Comma | Star | Equals | Plus | Minus | Percent | Slash | Open | Close | Caret | Question
    | Bang | NotEqual | Less | LessEqual | Greater | GreaterEqual | Bar | BarBar | Ampersand | AmpersandAmpersand
    | At | AtAt | LeftShift | RightShift

  datatype Item =
    | Mark(sign: Sign)
    | Escape(c: char)
    | Quoted(quote: char, body: string)
    | Number(text: string)
    | Name(text: string)
    | Ticked(text: string)
    | BlockNote(body: string)
    | LineNote(body: string)

  function SignText(sign: Sign): string {
    match sign
    case Semicolon => ";" case Dot => "." case Comma => "," case Star => "*" case Equals => "=" case Plus => "+"
    case Minus => "-" case Percent => "%" case Slash => "/" case Open => "(" case Close => ")" case Caret => "^"
    case Question => "?" case Bang => "!" case NotEqual => "!=" case Less => "<" case LessEqual => "<="
    case Greater => ">" case GreaterEqual => ">=" case Bar => "|" case BarBar => "||" case Ampersand => "&"
    case AmpersandAmpersand => "&&" case At => "@" case AtAt => "@@" case LeftShift => "<<" case RightShift => "><"
  }

  function ItemText(item: Item): string {
    match item
    case Mark(sign) => SignText(sign)
    case Escape(c) => ['\\', c]
    case Quoted(quote, body) => [quote] + body + [quote]
    case Number(text) => text
    case Name(text) => text
    case Ticked(text) => "`" + text + "`"
    case BlockNote(body) => "/*" + body + "*/"
    case LineNote(body) => "--" + body + "\n"
  }

  /** Each item after a blank. */
  function Spell(items: seq<Item>): string {
    if items == [] then "" else " " + (ItemText(items[0]) + Spell(items[1..]))
  }

  predicate IsWordText(text: string) {
    text != "" && !IsDigit(text[0]) && forall i :: 0 <= i < |text| ==> IsWord(text[i])
  }

  /** Row `i` is the first one with that name. */
  predicate FirstRow(keywords: Keywords, word: string, i: nat) {
    && i < |keywords| && SameIgnoringCase(word, keywords[i].name)
    && forall j :: 0 <= j < i ==> !SameIgnoringCase(word, keywords[j].name)
  }

  predicate NoRow(keywords: Keywords, word: string) {
    forall j :: 0 <= j < |keywords| ==> !SameIgnoringCase(word, keywords[j].name)
  }

  predicate WellFormed(keywords: Keywords, item: Item) {
    match item
    case Mark(_) => true
    case Escape(_) => true
    case Quoted(quote, body) => IsStringLiteral([quote] + body + [quote])
    case Number(text) => IsNumberLiteral(text)
    case Name(text) => IsWordText(text)
    case Ticked(text) => (forall i :: 0 <= i < |text| ==> IsWord(text[i])) && NoRow(keywords, text)
    case BlockNote(body) => forall i :: 0 <= i < |body| ==> body[i] != '*' && body[i] != '/'
    case LineNote(body) => forall i :: 0 <= i < |body| ==> NotNewline(body[i])
  }

  /** A shift is read as two tokens, for only its first character is consumed. */
  function SignTokens(sign: Sign): seq<Token> {
    match sign
    case Semicolon => [Token(Code.Semicolon, None)]
    case Dot => [Token(Code.Dot, None)]
    case Comma => [Token(Code.Comma, None)]
    case Star => [Token(Code.Star, None)]
    case Equals => [Token(Code.Eq, None)]
    case Plus => [Token(Code.Plus, None)]
    case Minus => [Token(Code.Minus, None)]
    case Percent => [Token(Code.Mod, None)]
    case Slash => [Token(Code.Div, None)]
    case Open => [Token(Code.BracketOpen, None)]
    case Close => [Token(Code.BracketClose, None)]
    case Caret => [Token(Code.Xor, None)]
    case Question => [Token(Code.QuestionMark, None)]
    case Bang => [Token(Code.Not, Some("!"))]
    case NotEqual => [Token(Code.Ne, Some("!="))]
    case Less => [Token(Code.Lt, Some("<"))]
    case LessEqual => [Token(Code.Le, Some("<="))]
    case Greater => [Token(Code.Gt, Some(">"))]
    case GreaterEqual => [Token(Code.Ge, Some(">="))]
    case Bar => [Token(Code.BitOr, Some("|"))]
    case BarBar => [Token(Code.Or, Some("OR"))]
    case Ampersand => [Token(Code.BitAnd, Some("&"))]
    case AmpersandAmpersand => [Token(Code.And, Some("AND"))]
    case At => [Token(Code.SessionVar, Some("@"))]
    case AtAt => [Token(Code.GlobalVar, Some("@"))]
    case LeftShift => [Token(Code.ShiftLeft, Some("<<")), Token(Code.Lt, Some("<"))]
    case RightShift => [Token(Code.ShiftRight, Some(">>")), Token(Code.Lt, Some("<"))]
  }

  /**
   * A word is what the first row with its name says, in whatever case it is written, and is handed on in the
   * spelling of the table if the row demands it; a word in no row is an identifier.
   */
  predicate IsWordToken(keywords: Keywords, text: string, token: Token) {
    && (NoRow(keywords, text) ==> token == Token(Ident, Some(text)))
    && forall i :: 0 <= i < |keywords| && FirstRow(keywords, text, i) ==>
         token == Token(keywords[i].code, Some(if keywords[i].mustBeEscaped then keywords[i].name else text))
  }

  predicate AreTokensOf(keywords: Keywords, item: Item, tokens: seq<Token>) {
    match item
    case Mark(sign) => tokens == SignTokens(sign)
    case Escape(_) => tokens == [Token(Unknown, None)]
    case Quoted(_, body) => tokens == [Token(Str, Some(body))]
    case Number(text) => tokens == [Token(Num, Some(text))]
    case Name(text) => |tokens| == 1 && IsWordToken(keywords, text, tokens[0])
    case Ticked(text) => tokens == [Token(Ident, Some(text))]
    case BlockNote(body) => tokens == [Token(Comment, Some(body))]
    case LineNote(body) => tokens == [Token(Comment, Some(body))]
  }

  // ---- words and the table ----

  lemma {:induction false} LookupIsFirst(keywords: Keywords, word: string, i: nat)
    requires i <= |keywords| && forall j :: 0 <= j < i ==> !SameIgnoringCase(word, keywords[j].name)
    ensures
      match Lookup(keywords, word, i)
      case None => NoRow(keywords, word)
      case Some(row) => exists k: nat :: FirstRow(keywords, word, k) && row == keywords[k]
    decreases |keywords| - i
  {
    if i < |keywords| {
      if SameIgnoringCase(word, keywords[i].name) {
        assert FirstRow(keywords, word, i);
      } else {
        LookupIsFirst(keywords, word, i + 1);
      }
    }
  }

  /** There is just one such token. */
  lemma WordTokenIs(keywords: Keywords, text: string, after: string)
    ensures forall token :: IsWordToken(keywords, text, token) <==> token == Word(keywords, text, after, false).token
  {
    LookupIsFirst(keywords, text, 0);
    if Lookup(keywords, text, 0).Some? {
      var k: nat :| FirstRow(keywords, text, k) && Lookup(keywords, text, 0) == Some(keywords[k]);
      forall i | FirstRow(keywords, text, i) ensures i == k {}
    }
  }

  // ---- one item ----

  predicate EndsItem(rest: string) {
    rest == "" || rest[0] == ' '
  }

  /** After a blank, the head of the text is the next token. */
  lemma ReadHead(keywords: Keywords, text: string, lexed: Lexed)
    requires text != "" && !IsBlank(text[0]) && Head(keywords, text) == lexed
    ensures GetToken(keywords, " " + text) == lexed
  {
    RunIs(IsBlank, " " + text, 1);
    assert (" " + text)[1..] == text;
  }

  lemma HeadIsToken(keywords: Keywords, text: string)
    requires text != "" && !IsBlank(text[0])
    ensures GetToken(keywords, text) == Head(keywords, text)
  {
    RunIs(IsBlank, text, 0);
    assert SkipBlanks(text) == text;
  }

  lemma HeadOfPunctuation(keywords: Keywords, s: string)
    requires s != "" && IsPunctuation(s[0]) && !StartsBlockComment(s) && !StartsLineComment(s)
    ensures Head(keywords, s) == Punctuation(s)
  {
  }

  lemma HeadOfWord(keywords: Keywords, s: string)
    requires s != "" && (s[0] == '`' || (IsWord(s[0]) && !IsDigit(s[0])))
    ensures Head(keywords, s) == Identifier(keywords, s)
  {
  }

  predicate IsShift(sign: Sign) {
    sign == LeftShift || sign == RightShift
  }

  /** What is left of a sign once its first token is read. */
  function SignRest(sign: Sign): string {
    if IsShift(sign) then "<" else ""
  }

  lemma SignStarts(sign: Sign, rest: string)
    requires EndsItem(rest)
    ensures
      var s := SignText(sign) + rest;
      IsPunctuation(s[0]) && !IsBlank(s[0]) && !StartsBlockComment(s) && !StartsLineComment(s)
  {
    var s, text := SignText(sign) + rest, SignText(sign);
    assert s[0] == text[0] && (|s| > 1 ==> s[1] == if |text| > 1 then text[1] else rest[0]);
  }

  function TwoCharacterToken(c: char, d: char): Token {
    if d == '=' then
      if c == '!' then Token(Code.Ne, Some("!=")) else if c == '<' then Token(Code.Le, Some("<="))
      else Token(Code.Ge, Some(">="))
    else if d == '|' then Token(Code.Or, Some("OR"))
    else if d == '&' then Token(Code.And, Some("AND"))
    else if d == '@' then Token(Code.GlobalVar, Some("@"))
    else if c == '<' then Token(Code.ShiftLeft, Some("<<"))
    else Token(Code.ShiftRight, Some(">>"))
  }

  predicate IsPair(c: char, d: char) {
    (d == '=' && (c == '!' || c == '<' || c == '>')) || (c == d && (c == '|' || c == '&' || c == '@'))
  }

  predicate IsShiftPair(c: char, d: char) {
    d == '<' && (c == '<' || c == '>')
  }

  lemma SignShape(sign: Sign)
    ensures
      var text, token := SignText(sign), SignTokens(sign)[0];
      && IsPunctuation(text[0])
      && if |text| == 1 then
           !IsShift(sign) && text == [text[0]] && text[0] != '\\' && token == OneCharacterToken(text[0])
         else
           && text == [text[0], text[1]] && token == TwoCharacterToken(text[0], text[1])
           && if IsShift(sign) then IsShiftPair(text[0], text[1]) else IsPair(text[0], text[1])
  {
  }

  lemma PunctuationOfSign(sign: Sign, rest: string)
    requires EndsItem(rest) && IsPunctuation((SignText(sign) + rest)[0])
    ensures Punctuation(SignText(sign) + rest) == Lexed(SignTokens(sign)[0], SignRest(sign) + rest)
  {
    SignShape(sign);
    var text := SignText(sign);
    assert "" + rest == rest;
    if |text| == 1 {
      OneCharacter(text[0], rest);
    } else {
      TwoCharacters(text[0], text[1], rest);
    }
  }

  function OneCharacterToken(c: char): Token {
    match c
    case ';' => Token(Code.Semicolon, None) case '.' => Token(Code.Dot, None) case ',' => Token(Code.Comma, None)
    case '*' => Token(Code.Star, None) case '=' => Token(Code.Eq, None) case '+' => Token(Code.Plus, None)
    case '-' => Token(Code.Minus, None) case '%' => Token(Code.Mod, None) case '/' => Token(Code.Div, None)
    case '(' => Token(Code.BracketOpen, None) case ')' => Token(Code.BracketClose, None)
    case '^' => Token(Code.Xor, None) case '?' => Token(Code.QuestionMark, None)
    case '!' => Token(Code.Not, Some("!")) case '<' => Token(Code.Lt, Some("<")) case '>' => Token(Code.Gt, Some(">"))
    case '|' => Token(Code.BitOr, Some("|")) case '&' => Token(Code.BitAnd, Some("&"))
    case _ => Token(Code.SessionVar, Some("@"))
  }

  lemma OneCharacter(c: char, rest: string)
    requires IsPunctuation(c) && c != '\\' && EndsItem(rest)
    ensures Punctuation([c] + rest) == Lexed(OneCharacterToken(c), rest)
  {
    var s := [c] + rest;
    assert s[0] == c && s[1..] == rest && (|s| > 1 ==> s[1] == ' ');
  }

  lemma TwoCharacters(c: char, d: char, rest: string)
    requires IsPair(c, d) || IsShiftPair(c, d)
    ensures IsPunctuation(([c, d] + rest)[0])
    ensures Punctuation([c, d] + rest) == Lexed(TwoCharacterToken(c, d), if IsPair(c, d) then rest else "<" + rest)
  {
    var s := [c, d] + rest;
    assert s[0] == c && s[1] == d && s[2..] == rest && s[1..] == [d] + rest;
  }

  lemma ReadPunctuation(keywords: Keywords, text: string, lexed: Lexed)
    requires text != "" && IsPunctuation(text[0]) && !StartsBlockComment(text) && !StartsLineComment(text)
    requires Punctuation(text) == lexed
    ensures GetToken(keywords, " " + text) == lexed && GetToken(keywords, text) == lexed
  {
    HeadOfPunctuation(keywords, text);
    ReadHead(keywords, text, lexed);
    HeadIsToken(keywords, text);
  }

  lemma ReadSign(keywords: Keywords, sign: Sign, rest: string)
    requires EndsItem(rest)
    ensures GetToken(keywords, " " + (SignText(sign) + rest)) == Lexed(SignTokens(sign)[0], SignRest(sign) + rest)
  {
    SignStarts(sign, rest);
    PunctuationOfSign(sign, rest);
    var text, lexed := SignText(sign) + rest, Lexed(SignTokens(sign)[0], SignRest(sign) + rest);
    ReadPunctuation(keywords, text, lexed);
  }

  lemma ReadLess(keywords: Keywords, rest: string)
    requires EndsItem(rest)
    ensures GetToken(keywords, "<" + rest) == Lexed(Token(Code.Lt, Some("<")), rest)
  {
    SignStarts(Less, rest);
    OneCharacter('<', rest);
    ReadPunctuation(keywords, "<" + rest, Lexed(Token(Code.Lt, Some("<")), rest));
  }

  lemma ReadEscape(keywords: Keywords, c: char, rest: string)
    ensures GetToken(keywords, " " + (['\\', c] + rest)) == Lexed(Token(Unknown, None), rest)
  {
    var s := ['\\', c] + rest;
    assert s[0] == '\\' && s[2..] == rest;
    HeadOfPunctuation(keywords, s);
    ReadHead(keywords, s, Lexed(Token(Unknown, None), rest));
  }

  lemma ReadName(keywords: Keywords, text: string, rest: string, token: Token)
    requires IsWordText(text) && EndsItem(rest) && IsWordToken(keywords, text, token)
    ensures GetToken(keywords, " " + (text + rest)) == Lexed(token, rest)
  {
    var s := text + rest;
    assert s[0] == text[0];
    RunSplit(IsWord, text, rest);
    assert Run(IsWord, rest) == 0;
    assert s[..|text|] == text && s[|text|..] == rest;
    BareWord(keywords, s);
    WordTokenIs(keywords, text, rest);
    WordProgress(keywords, text, rest, false);
    HeadOfWord(keywords, s);
    ReadHead(keywords, s, Lexed(token, rest));
  }

  lemma ReadTicked(keywords: Keywords, text: string, rest: string)
    requires (forall i :: 0 <= i < |text| ==> IsWord(text[i])) && NoRow(keywords, text)
    ensures GetToken(keywords, " " + (("`" + text + "`") + rest)) == Lexed(Token(Ident, Some(text)), rest)
  {
    var s, tail := ("`" + text + "`") + rest, text + ("`" + rest);
    assert s[0] == '`' && s[1..] == tail;
    RunSplit(IsWord, text, "`" + rest);
    assert Run(IsWord, "`" + rest) == 0;
    assert tail[..|text|] == text && tail[|text|..] == "`" + rest && ("`" + rest)[1..] == rest;
    TickedWord(keywords, s);
    LookupIsFirst(keywords, text, 0);
    HeadOfWord(keywords, s);
    ReadHead(keywords, s, Lexed(Token(Ident, Some(text)), rest));
  }

  /** What is read without the blank is read with it. */
  lemma ReadLiteral(keywords: Keywords, text: string, lexed: Lexed)
    requires text != "" && !IsBlank(text[0]) && GetToken(keywords, text) == lexed
    ensures GetToken(keywords, " " + text) == lexed
  {
    HeadIsToken(keywords, text);
    ReadHead(keywords, text, lexed);
  }

  lemma HeadOfComment(keywords: Keywords, s: string)
    ensures StartsBlockComment(s) ==> Head(keywords, s) == Lexed(Token(Comment, Some(BlockBody(s))), AfterBlock(s))
    ensures !StartsBlockComment(s) && StartsLineComment(s) ==>
              Head(keywords, s) == Lexed(Token(Comment, Some(LineBody(s))), AfterLine(s))
  {
  }

  lemma ReadBlockNote(keywords: Keywords, body: string, rest: string)
    requires forall i :: 0 <= i < |body| ==> body[i] != '*' && body[i] != '/'
    ensures GetToken(keywords, " " + (("/*" + body + "*/") + rest)) == Lexed(Token(Comment, Some(body)), rest)
  {
    var s, tail := ("/*" + body + "*/") + rest, body + "*/" + rest;
    assert s[2..] == tail;
    CommentRunIsBody(body, rest);
    assert BlockBody(s) == tail[..|body|] == body && AfterBlock(s) == s[|body| + 4..] == rest;
    HeadOfComment(keywords, s);
    ReadHead(keywords, s, Lexed(Token(Comment, Some(body)), rest));
  }

  lemma ReadLineNote(keywords: Keywords, body: string, rest: string)
    requires forall i :: 0 <= i < |body| ==> NotNewline(body[i])
    ensures GetToken(keywords, " " + (("--" + body + "\n") + rest)) == Lexed(Token(Comment, Some(body)), rest)
  {
    var s := ("--" + body + "\n") + rest;
    LineIsComment(body, rest);
    assert "--" + (body + ("\n" + rest)) == s;
    HeadOfComment(keywords, s);
    ReadHead(keywords, s, Lexed(Token(Comment, Some(body)), rest));
  }

  /** What is left of an item once its first token is read: nothing, except for shifts. */
  function ItemRest(item: Item): string {
    if item.Mark? then SignRest(item.sign) else ""
  }

  lemma ReadItem(keywords: Keywords, item: Item, rest: string, tokens: seq<Token>)
    requires WellFormed(keywords, item) && EndsItem(rest) && AreTokensOf(keywords, item, tokens)
    ensures GetToken(keywords, " " + (ItemText(item) + rest)) == Lexed(tokens[0], ItemRest(item) + rest)
  {
    assert "" + rest == rest;
    match item
    case Mark(sign) => ReadSign(keywords, sign, rest);
    case Escape(c) => ReadEscape(keywords, c, rest);
    case Quoted(quote, body) => ReadQuoted(keywords, quote, body, rest);
    case Number(text) =>
      NumberIsOneToken(keywords, text, rest);
      ReadLiteral(keywords, text + rest, Lexed(Token(Num, Some(text)), rest));
    case Name(text) => ReadName(keywords, text, rest, tokens[0]);
    case Ticked(text) => ReadTicked(keywords, text, rest);
    case BlockNote(body) => ReadBlockNote(keywords, body, rest);
    case LineNote(body) => ReadLineNote(keywords, body, rest);
  }

  lemma ReadQuoted(keywords: Keywords, quote: char, body: string, rest: string)
    requires IsStringLiteral([quote] + body + [quote])
    ensures GetToken(keywords, " " + (([quote] + body + [quote]) + rest)) == Lexed(Token(Str, Some(body)), rest)
  {
    var text := [quote] + body + [quote];
    StringIsOneToken(keywords, text, rest);
    assert text[1..|text| - 1] == body && text[0] == quote;
    ReadLiteral(keywords, text + rest, Lexed(Token(Str, Some(body)), rest));
  }

  // ---- all items ----

  function Flatten(readings: seq<seq<Token>>): seq<Token> {
    if readings == [] then [] else readings[0] + Flatten(readings[1..])
  }

  lemma FirstToken(keywords: Keywords, s: string, token: Token, rest: string)
    requires s != "" && |rest| < |s| && GetToken(keywords, s) == Lexed(token, rest)
    ensures Tokens(keywords, s) == [token] + Tokens(keywords, rest)
  {
  }

  lemma Count(keywords: Keywords, item: Item, tokens: seq<Token>)
    requires AreTokensOf(keywords, item, tokens)
    ensures if ItemRest(item) == "" then |tokens| == 1
            else ItemRest(item) == "<" && |tokens| == 2 && tokens[1] == Token(Code.Lt, Some("<"))
  {
  }

  const LESS := Token(Code.Lt, Some("<"))

  lemma LessRead(keywords: Keywords, rest: string, others: seq<Token>)
    requires EndsItem(rest) && Tokens(keywords, rest) == others
    ensures Tokens(keywords, "<" + rest) == [Token(Code.Lt, Some("<"))] + others
  {
    ReadLess(keywords, rest);
    FirstToken(keywords, "<" + rest, Token(Code.Lt, Some("<")), rest);
  }

  lemma ItemIsLonger(item: Item)
    ensures |ItemText(item)| >= |ItemRest(item)|
  {
  }

  lemma SpellEndsItem(items: seq<Item>)
    ensures EndsItem(Spell(items))
  {
  }

  lemma ReadOne(keywords: Keywords, s: string, rest: string, token: Token, others: seq<Token>)
    requires |rest| < |s| && GetToken(keywords, s) == Lexed(token, rest) && Tokens(keywords, rest) == others
    ensures Tokens(keywords, s) == [token] + others
  {
    FirstToken(keywords, s, token, rest);
  }

  lemma ReadTwo(keywords: Keywords, s: string, rest: string, token: Token, others: seq<Token>)
    requires |rest| + 1 < |s| && GetToken(keywords, s) == Lexed(token, "<" + rest)
    requires EndsItem(rest) && Tokens(keywords, rest) == others
    ensures Tokens(keywords, s) == [token] + ([LESS] + others)
  {
    LessRead(keywords, rest, others);
    ReadOne(keywords, s, "<" + rest, token, [LESS] + others);
  }

  lemma ReadParts(keywords: Keywords, s: string, left: string, rest: string, tokens: seq<Token>, others: seq<Token>)
    requires EndsItem(rest) && Tokens(keywords, rest) == others && |left| + |rest| < |s|
    requires if left == "" then |tokens| == 1 else left == "<" && |tokens| == 2 && tokens[1] == LESS
    requires GetToken(keywords, s) == Lexed(tokens[0], left + rest)
    ensures Tokens(keywords, s) == tokens + others
  {
    if left == "" {
      assert left + rest == rest && tokens == [tokens[0]];
      ReadOne(keywords, s, rest, tokens[0], others);
    } else {
      assert tokens + others == [tokens[0]] + ([LESS] + others);
      ReadTwo(keywords, s, rest, tokens[0], others);
    }
  }

  lemma ReadSpelled(keywords: Keywords, item: Item, rest: string, tokens: seq<Token>, others: seq<Token>)
    requires WellFormed(keywords, item) && EndsItem(rest) && AreTokensOf(keywords, item, tokens)
    requires Tokens(keywords, rest) == others
    ensures Tokens(keywords, " " + (ItemText(item) + rest)) == tokens + others
  {
    Count(keywords, item, tokens);
    ItemIsLonger(item);
    ReadItem(keywords, item, rest, tokens);
    ReadParts(keywords, " " + (ItemText(item) + rest), ItemRest(item), rest, tokens, others);
  }

  lemma SpelledStep(keywords: Keywords, items: seq<Item>, first: seq<Token>, others: seq<Token>)
    requires items != [] && WellFormed(keywords, items[0]) && AreTokensOf(keywords, items[0], first)
    requires Tokens(keywords, Spell(items[1..])) == others
    ensures Tokens(keywords, Spell(items)) == first + others
  {
    SpellEndsItem(items[1..]);
    SpellStep(items);
    ReadSpelled(keywords, items[0], Spell(items[1..]), first, others);
  }

  /** What is spelled out is read back, token for token. */
  lemma {:induction false} SpelledIsRead(keywords: Keywords, items: seq<Item>, readings: seq<seq<Token>>)
    requires |readings| == |items|
    requires forall i :: 0 <= i < |items| ==>
               WellFormed(keywords, items[i]) && AreTokensOf(keywords, items[i], readings[i])
    ensures Tokens(keywords, Spell(items)) == Flatten(readings)
    decreases |items|
  {
    if items != [] {
      SpelledIsRead(keywords, items[1..], readings[1..]);
      SpelledStep(keywords, items, readings[0], Flatten(readings[1..]));
    }
  }

  lemma SpellStep(items: seq<Item>)
    requires items != []
    ensures Spell(items) == " " + (ItemText(items[0]) + Spell(items[1..]))
  {
  }

  /** Every item has such a reading, so the tokenizer's answer to a spelled-out query is settled. */
  lemma TokensOfItem(keywords: Keywords, item: Item) returns (tokens: seq<Token>)
    ensures AreTokensOf(keywords, item, tokens)
  {
    match item {
      case Mark(sign) => tokens := SignTokens(sign);
      case Escape(_) => tokens := [Token(Unknown, None)];
      case Quoted(_, body) => tokens := [Token(Str, Some(body))];
      case Number(text) => tokens := [Token(Num, Some(text))];
      case Name(text) =>
        WordTokenIs(keywords, text, "");
        tokens := [Word(keywords, text, "", false).token];
      case Ticked(text) => tokens := [Token(Ident, Some(text))];
      case BlockNote(body) => tokens := [Token(Comment, Some(body))];
      case LineNote(body) => tokens := [Token(Comment, Some(body))];
    }
  }
}
