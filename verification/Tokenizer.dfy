/** mysqlnd_qc_get_token as the source runs it: loops that move a pointer and count down the length. */
module Tokenizer {
  import opened Wrappers
  import opened Text
  import opened Lexer

  /** The next token of the query from `from` on, and where it ends. */
  method NextToken(keywords: Keywords, query: string, from: nat) returns (token: Token, p: nat)
    requires from <= |query|
    ensures from <= p <= |query|
    ensures Lexed(token, query[p..]) == GetToken(keywords, query[from..])
  {
    p := from;
    if from == |query| {
      token := NO_MORE;
      return;
    }
    p := Scan(IsBlank, query, from);
    assert query[p..] == SkipBlanks(query[from..]);
    if |query| - p > 1 && query[p] == '/' && query[p + 1] == '*' {
      token, p := LexBlockComment(query, p);
    } else if |query| - p > 1 && query[p] == '-' && query[p + 1] == '-' {
      token, p := LexLineComment(query, p);
    } else if p < |query| && IsPunctuation(query[p]) {
      token, p := LexPunctuation(query, p);
    } else if p < |query| && IsQuote(query[p]) {
      token, p := LexString(query, p);
    } else if p < |query| && IsNumeric(query[p]) {
      token, p := LexNumber(query, p);
    } else {
      token, p := LexIdentifier(keywords, query, p);
    }
  }

  method LexBlockComment(query: string, from: nat) returns (token: Token, p: nat)
    requires from <= |query| && StartsBlockComment(query[from..])
    ensures from <= p <= |query|
    ensures token == Token(Comment, Some(BlockBody(query[from..]))) && query[p..] == AfterBlock(query[from..])
  {
    assert query[from..][2..] == query[from + 2..];
    p := ScanComment(query, from + 2);
    token := Token(Comment, Some(query[from + 2..p]));
    assert query[from + 2..p] == BlockBody(query[from..]);
    if |query| - p > 1 {
      p := p + 2;
    }
  }

  method LexLineComment(query: string, from: nat) returns (token: Token, p: nat)
    requires from <= |query| && StartsLineComment(query[from..])
    ensures from <= p <= |query|
    ensures token == Token(Comment, Some(LineBody(query[from..]))) && query[p..] == AfterLine(query[from..])
  {
    assert query[from..][2..] == query[from + 2..];
    p := Scan(NotNewline, query, from + 2);
    token := Token(Comment, Some(query[from + 2..p]));
    assert query[from + 2..p] == LineBody(query[from..]);
    if p < |query| {
      p := p + 1;
    }
  }

  /** The switch over the first character. */
  method LexPunctuation(query: string, from: nat) returns (token: Token, p: nat)
    requires from < |query| && IsPunctuation(query[from])
    ensures from <= p <= |query|
    ensures Lexed(token, query[p..]) == Punctuation(query[from..])
  {
    p := from + 1;
    ghost var s := query[from..];
    assert s[1..] == query[p..] && (|s| > 1 ==> s[1] == query[p] && s[2..] == query[p + 1..]);
    var next := if p < |query| then Some(query[p]) else None;
    match query[from] {
      case '\\' =>
        token := Token(Unknown, None);
        if next.Some? { p := p + 1; }
      case ';' => token := Token(Semicolon, None);
      case '.' => token := Token(Dot, None);
      case ',' => token := Token(Comma, None);
      case '*' => token := Token(Star, None);
      case '=' => token := Token(Eq, None);
      case '+' => token := Token(Plus, None);
      case '-' => token := Token(Minus, None);
      case '%' => token := Token(Mod, None);
      case '/' => token := Token(Div, None);
      case '(' => token := Token(BracketOpen, None);
      case ')' => token := Token(BracketClose, None);
      case '^' => token := Token(Xor, None);
      case '?' => token := Token(QuestionMark, None);
      case _ => token, p := LexOperator(query, from);
    }
  }

  /** The characters that may make an operator with the one that follows. */
  method LexOperator(query: string, from: nat) returns (token: Token, p: nat)
    requires from < |query| && query[from] in {'!', '<', '>', '|', '&', '@'}
    ensures from <= p <= |query|
    ensures Lexed(token, query[p..]) == Punctuation(query[from..])
  {
    p := from + 1;
    ghost var s := query[from..];
    assert s[1..] == query[p..] && (|s| > 1 ==> s[1] == query[p] && s[2..] == query[p + 1..]);
    var c, next := query[from], if p < |query| then Some(query[p]) else None;
    if (c == '!' || c == '<' || c == '>') && next == Some('=') {
      token := if c == '!' then Token(Ne, Some("!="))
               else if c == '<' then Token(Le, Some("<="))
               else Token(Ge, Some(">="));
      p := p + 1;
    } else if (c == '|' || c == '&' || c == '@') && next == Some(c) {
      token := if c == '|' then Token(Or, Some("OR"))
               else if c == '&' then Token(And, Some("AND"))
               else Token(GlobalVar, Some("@"));
      p := p + 1;
    } else if (c == '<' || c == '>') && next == Some('<') {
      token := if c == '<' then Token(ShiftLeft, Some("<<")) else Token(ShiftRight, Some(">>"));
    } else {
      token := Token(match c
                     case '!' => Not case '<' => Lt case '>' => Gt
                     case '|' => BitOr case '&' => BitAnd case _ => SessionVar,
                     Some([c]));
    }
  }

  /** The loop that looks for the closing quote; it looks back for a backslash. */
  method ScanString(quote: char, query: string, from: nat) returns (p: nat)
    requires 0 < from <= |query|
    ensures p == from + StringRun(quote, query[from - 1], query[from..])
  {
    p := from;
    while p < |query| && (query[p] != quote || query[p - 1] == '\\')
      invariant from <= p <= |query|
      invariant StringRun(quote, query[from - 1], query[from..]) ==
                p - from + StringRun(quote, query[p - 1], query[p..])
    {
      assert query[p..][1..] == query[p + 1..];
      p := p + 1;
    }
  }

  method LexString(query: string, from: nat) returns (token: Token, p: nat)
    requires from < |query| && IsQuote(query[from])
    ensures from <= p <= |query|
    ensures Lexed(token, query[p..]) == StringLiteral(query[from..])
  {
    if from + 1 == |query| {
      token, p := NO_MORE, from + 1;
      return;
    }
    p := ScanString(query[from], query, from + 1);
    token := Token(Str, Some(query[from + 1..p]));
    ghost var s := query[from..];
    assert s[1..] == query[from + 1..] && s[1..p - from] == query[from + 1..p];
    if p < |query| {
      p := p + 1;
      assert s[p - from..] == query[p..];
    }
  }

  method LexNumber(query: string, from: nat) returns (token: Token, p: nat)
    requires from <= |query|
    ensures from <= p <= |query|
    ensures Lexed(token, query[p..]) == Number(query[from..])
  {
    p := Scan(IsNumeric, query, from);
    token := Token(Num, Some(query[from..p]));
    assert query[from..][..p - from] == query[from..p] && query[from..][p - from..] == query[p..];
  }

  method LexIdentifier(keywords: Keywords, query: string, from: nat) returns (token: Token, p: nat)
    requires from <= |query|
    ensures from <= p <= |query|
    ensures Lexed(token, query[p..]) == Identifier(keywords, query[from..])
  {
    var ticked := from < |query| && query[from] == '`';
    var start := if ticked then from + 1 else from;
    p := Scan(IsWord, query, start);
    ghost var t := query[start..];
    assert t == if ticked then query[from..][1..] else query[from..];
    assert t[..p - start] == query[start..p] && t[p - start..] == query[p..];
    token, p := FinishWord(keywords, query, start, p, ticked);
  }

  /** A keyword, or an identifier with its closing tick. */
  method FinishWord(keywords: Keywords, query: string, start: nat, end: nat, ticked: bool)
    returns (token: Token, p: nat)
    requires start <= end <= |query|
    ensures end <= p <= |query|
    ensures Lexed(token, query[p..]) == Word(keywords, query[start..end], query[end..], ticked)
  {
    var word := query[start..end];
    p := end;
    var row := FindKeyword(keywords, word);
    if row.Some? {
      token := Token(row.value.code, Some(if row.value.mustBeEscaped then row.value.name else word));
    } else {
      token := Token(Ident, Some(word));
      if ticked && p < |query| && query[p] == '`' {
        assert query[p..][1..] == query[p + 1..];
        p := p + 1;
      }
    }
  }

  /** The loop over static_tokens. */
  method FindKeyword(keywords: Keywords, word: string) returns (row: Option<StaticToken>)
    ensures row == Lookup(keywords, word, 0)
  {
    var i := 0;
    while i < |keywords|
      invariant i <= |keywords| && Lookup(keywords, word, 0) == Lookup(keywords, word, i)
    {
      if SameIgnoringCase(word, keywords[i].name) {
        return Some(keywords[i]);
      }
      i := i + 1;
    }
    return None;
  }
}
