/**
 * Query normalisation for the trace log (mysqlnd_qc_query_tokenize): queries that differ only in
 * their literals are to share one log entry.
 */
module Normalizer {
  import opened Lexer
  import opened Tokenizer

  function ValueText(token: Token): string {
    if token.value.Some? then token.value.value else ""
  }

  /** Puts `c` in the place of a trailing blank, or appends it. */
  function Close(out: string, c: char): string {
    if out != "" && out[|out| - 1] == ' ' then out[..|out| - 1] + [c] else out + [c]
  }

  /** The output after one more token. */
  function RenderToken(out: string, token: Token): string {
    match token.code
    case GlobalVar => out + "@@"
    case SessionVar => out + "@"
    case Star => out + "*"
    case Eq => out + "="
    case Dot => Close(out, '.')
    case Xor => out + "^"
    case Plus => out + "+"
    case Minus => out + "-"
    case Mod => out + "%"
    case Div => out + "/"
    case Comma => Close(out, ',') + " "
    case BracketOpen => out + "("
    case BracketClose => out + ") "
    case Lt => out + "<"
    case Le => out + " <= "
    case Gt => out + ">"
    case Ge => out + " >= "
    case Ne => out + " != "
    case Str => out + "? "
    case Num => out + "? "
    case Comment => out
    case Semicolon => out + ";"
    case QuestionMark => out + ";"
    case Unknown => out
    case NoMore => out
    // identifiers and all keywords
    case _ => out + ValueText(token) + " "
  }

  /** A pure rendering of a sequence of tokens, up to the first NO_MORE. */
  function Render(out: string, tokens: seq<Token>): string
    decreases |tokens|
  {
    if tokens == [] || tokens[0].code == NoMore then out
    else Render(RenderToken(out, tokens[0]), tokens[1..])
  }

  function DropLastBlank(out: string): string {
    if out != "" && out[|out| - 1] == ' ' then out[..|out| - 1] else out
  }

  function Normalized(keywords: Keywords, query: string): string {
    DropLastBlank(Render("", Tokens(keywords, query)))
  }

  /** The rest `s` of the query, rendered behind `out`, gives the whole text. */
  predicate Completes(keywords: Keywords, out: string, s: string, whole: string) {
    Lexable(keywords, s) && Render(out, Tokens(keywords, s)) == whole
  }

  lemma RenderNext(keywords: Keywords, out: string, s: string, whole: string)
    requires Completes(keywords, out, s, whole)
    ensures
      var lexed := GetToken(keywords, s);
      if lexed.token.code == NoMore then out == whole
      else |lexed.rest| < |s| && Completes(keywords, RenderToken(out, lexed.token), lexed.rest, whole)
  {
    if s != "" {
      GetTokenProgress(keywords, s);
      assert Tokens(keywords, s)[1..] == Tokens(keywords, GetToken(keywords, s).rest);
    }
  }

  /**
   * The source also tracks the first table and database name, and jumps back over the
   * initialisation of that tracking. None of it reaches the output: the text is the pure
   * rendering of the tokens. The loop ends on just the lexable queries (Lexer.LoopEndsIffLexable).
   */
  method QueryTokenize(keywords: Keywords, query: string) returns (normalized: string)
    requires Lexable(keywords, query)
    ensures normalized == Normalized(keywords, query)
  {
    var out, p := "", 0;
    var firstDb, firstTable: string := "", "";
    var tablesUsed := 0;
    var expectTableName, expectDotPartOfTable, dbFound := false, false, false;
    var jumpToSkipInit := false;
    ghost var whole := Render("", Tokens(keywords, query));
    assert query[0..] == query;
    while true
      invariant p <= |query| && Completes(keywords, out, query[p..], whole)
      decreases |query| - p
    {
      if !jumpToSkipInit {
        expectDotPartOfTable, dbFound := false, false;
      }
      jumpToSkipInit := false;
      RenderNext(keywords, out, query[p..], whole);
      var token;
      token, p := NextToken(keywords, query, p);
      if token.code == NoMore {
        break;
      }
      out := RenderOnto(out, token);
      if token.code == From {
        expectTableName := true;
        tablesUsed := 1;
      } else if token.code == Where {
        expectTableName := false;
      } else if (token.code == Ident || token.code == Dual) && expectTableName {
        tablesUsed := tablesUsed + 1;
        if firstTable == "" {
          firstTable := ValueText(token) + "\0";
          if !dbFound {
            expectDotPartOfTable := true;
            jumpToSkipInit := true;
          }
        }
      } else if token.code == Dot && expectDotPartOfTable {
        firstDb, firstTable := firstTable, firstDb;
        tablesUsed := tablesUsed - 1;
        dbFound := true;
        jumpToSkipInit := true;
      }
    }
    normalized := if out != "" && out[|out| - 1] == ' ' then out[..|out| - 1] else out;
  }

  /** The switch over the token code. */
  method RenderOnto(out0: string, token: Token) returns (out: string)
    ensures out == RenderToken(out0, token)
  {
    out := out0;
    match token.code {
      case GlobalVar => out := out + "@@";
      case SessionVar => out := out + "@";
      case Star => out := out + "*";
      case Eq => out := out + "=";
      case Dot =>
        if out != "" && out[|out| - 1] == ' ' {
          out := out[..|out| - 1];
        }
        out := out + ".";
      case Xor => out := out + "^";
      case Plus => out := out + "+";
      case Minus => out := out + "-";
      case Mod => out := out + "%";
      case Div => out := out + "/";
      case Comma =>
        if out != "" && out[|out| - 1] == ' ' {
          out := out[..|out| - 1];
        }
        out := out + ",";
        out := out + " ";
      case BracketOpen => out := out + "(";
      case BracketClose => out := out + ") ";
      case Lt => out := out + "<";
      case Le => out := out + " <= ";
      case Gt => out := out + ">";
      case Ge => out := out + " >= ";
      case Ne => out := out + " != ";
      case Str => out := out + "? ";
      case Num => out := out + "? ";
      case Comment =>
      case Semicolon => out := out + ";";
      case QuestionMark => out := out + ";";
      case Unknown =>
      case NoMore =>
      case _ =>
        out := out + ValueText(token);
        out := out + " ";
    }
  }
}
