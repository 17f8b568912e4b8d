/**
 * What a normalised query remembers: everything but the values of literals, comments, escaped
 * characters, and the few distinctions listed in MarksOf.
 */
module LogEntries {
  import opened Text
  import opened Lexer
  import opened Normalizer

  /** Letters that stand by themselves, want a blank after them, or one on either side. */
  datatype Mark = Bare(letters: string) | Spaced(letters: string) | Framed(letters: string)

  /**
   * What a token leaves in the text. Strings and numbers are alike; `?` cannot be told from `;`, nor `@@`
   * from two `@`; comments and escaped characters leave nothing; all others leave their value.
   */
  function MarksOf(token: Token): seq<Mark> {
    match token.code
    case Comment => []
    case Unknown => []
    case NoMore => []
    case Str => [Spaced("?")]
    case Num => [Spaced("?")]
    case Semicolon => [Bare(";")]
    case QuestionMark => [Bare(";")]
    case SessionVar => [Bare("@")]
    case GlobalVar => [Bare("@"), Bare("@")]
    case Star => [Bare("*")]
    case Eq => [Bare("=")]
    case Dot => [Bare(".")]
    case Xor => [Bare("^")]
    case Plus => [Bare("+")]
    case Minus => [Bare("-")]
    case Mod => [Bare("%")]
    case Div => [Bare("/")]
    case BracketOpen => [Bare("(")]
    case Lt => [Bare("<")]
    case Gt => [Bare(">")]
    case Comma => [Spaced(",")]
    case BracketClose => [Spaced(")")]
    case Le => [Framed("<=")]
    case Ge => [Framed(">=")]
    case Ne => [Framed("!=")]
    case _ => [Spaced(ValueText(token))]
  }

  predicate IsWordy(text: string) {
    forall i :: 0 <= i < |text| ==> IsWord(text[i])
  }

  /** The value of an operator, an identifier or a keyword. */
  predicate IsValue(text: string) {
    text == "!" || text == "<<" || text == ">>" || text == "|" || text == "&" || IsWordy(text)
  }

  predicate HasValue(token: Token) {
    IsValue(ValueText(token))
  }

  /** The marks of all tokens, up to the first NO_MORE. */
  function Marks(tokens: seq<Token>): seq<Mark> {
    if tokens == [] || tokens[0].code == NoMore then [] else MarksOf(tokens[0]) + Marks(tokens[1..])
  }

  // ---- the text of a sequence of marks ----

  /** The letters, with a blank in front if the mark is framed. */
  function Face(mark: Mark): string {
    if mark.Framed? then " " + mark.letters else mark.letters
  }

  /** A dot or a comma follows the letters before it without a blank. */
  predicate Closes(mark: Mark) {
    mark.letters == "." || mark.letters == ","
  }

  /** The blank between a mark and what follows it. */
  function Blank(mark: Mark, rest: seq<Mark>): string {
    if !mark.Bare? && rest != [] && !Closes(rest[0]) then " " else ""
  }

  function TextOf(marks: seq<Mark>): string {
    if marks == [] then "" else Face(marks[0]) + (Blank(marks[0], marks[1..]) + TextOf(marks[1..]))
  }

  // ---- the normaliser writes that text ----

  function Place(out: string, mark: Mark): string {
    (if Closes(mark) then DropLastBlank(out) else out) + Face(mark) + (if mark.Bare? then "" else " ")
  }

  function PlaceAll(out: string, marks: seq<Mark>): string
    decreases |marks|
  {
    if marks == [] then out else PlaceAll(Place(out, marks[0]), marks[1..])
  }

  lemma PlaceOne(out: string, mark: Mark)
    ensures PlaceAll(out, [mark]) == Place(out, mark)
  {
    assert [mark][1..] == [];
  }

  /** Placing, with the constants put together. */
  lemma PlaceIs(out: string, letters: string)
    requires letters != "." && letters != ","
    ensures Place(out, Bare(letters)) == out + letters
    ensures Place(out, Spaced(letters)) == out + letters + " "
    ensures letters == "<=" ==> Place(out, Framed(letters)) == out + " <= "
    ensures letters == ">=" ==> Place(out, Framed(letters)) == out + " >= "
    ensures letters == "!=" ==> Place(out, Framed(letters)) == out + " != "
  {
    assert out + letters + "" == out + letters;
    assert " " + "<=" + " " == " <= " && " " + ">=" + " " == " >= " && " " + "!=" + " " == " != ";
    assert out + (" " + letters) + " " == out + (" " + letters + " ");
  }

  lemma PlaceClosing(out: string)
    ensures Place(out, Bare(".")) == Close(out, '.')
    ensures Place(out, Spaced(",")) == Close(out, ',') + " "
  {
    assert DropLastBlank(out) + "." + "" == DropLastBlank(out) + ".";
  }

  lemma PlaceBlanks(out: string)
    ensures out + ")" + " " == out + ") " && out + "?" + " " == out + "? " && out + "@" + "@" == out + "@@"
  {
  }

  /** A token that leaves its value: an identifier, a keyword, or an operator without a mark of its own. */
  predicate Speaks(token: Token) {
    match token.code
    case Not => true case ShiftLeft => true case ShiftRight => true case BitOr => true case Or => true
    case BitAnd => true case And => true case Ident => true case Select => true case From => true case Where => true
    case Dual => true case Keyword(_) => true
    case _ => false
  }

  lemma MarkIsPlaced(out: string, token: Token, mark: Mark)
    requires MarksOf(token) == [mark] && (Speaks(token) ==> HasValue(token))
    ensures RenderToken(out, token) == Place(out, mark)
  {
    if Speaks(token) {
      PlaceIs(out, mark.letters);
    } else {
      SignIsPlaced(out, token, mark);
    }
  }

  lemma SignIsPlaced(out: string, token: Token, mark: Mark)
    requires MarksOf(token) == [mark] && !Speaks(token)
    ensures RenderToken(out, token) == Place(out, mark)
  {
    PlaceBlanks(out);
    PlaceClosing(out);
    if !Closes(mark) {
      PlaceIs(out, mark.letters);
    }
  }

  lemma TokenIsPlaced(out: string, token: Token)
    requires token.code != NoMore && (Speaks(token) ==> HasValue(token))
    ensures RenderToken(out, token) == PlaceAll(out, MarksOf(token))
  {
    var marks := MarksOf(token);
    if |marks| == 1 {
      PlaceOne(out, marks[0]);
      MarkIsPlaced(out, token, marks[0]);
    } else if |marks| == 2 {
      assert marks[1..] == [Bare("@")];
      PlaceBlanks(out);
      PlaceIs(out, "@");
      PlaceIs(out + "@", "@");
      PlaceOne(out + "@", Bare("@"));
    }
  }

  lemma {:induction false} PlaceJoined(out: string, a: seq<Mark>, b: seq<Mark>)
    ensures PlaceAll(out, a + b) == PlaceAll(PlaceAll(out, a), b)
    decreases |a|
  {
    if a == [] {
      assert a + b == b;
    } else {
      assert (a + b)[1..] == a[1..] + b;
      PlaceJoined(Place(out, a[0]), a[1..], b);
    }
  }

  ghost predicate AllHaveValues(tokens: seq<Token>) {
    forall i :: 0 <= i < |tokens| && Speaks(tokens[i]) ==> HasValue(tokens[i])
  }

  lemma {:induction false} RenderIsPlaced(out: string, tokens: seq<Token>)
    requires AllHaveValues(tokens)
    ensures Render(out, tokens) == PlaceAll(out, Marks(tokens))
    decreases |tokens|
  {
    if tokens != [] && tokens[0].code != NoMore {
      TokenIsPlaced(out, tokens[0]);
      PlaceJoined(out, MarksOf(tokens[0]), Marks(tokens[1..]));
      RenderIsPlaced(RenderToken(out, tokens[0]), tokens[1..]);
    }
  }

  predicate EndsInk(text: string) {
    text != "" && text[|text| - 1] != ' '
  }

  /** Bare marks do not end in a blank; the others get one. */
  ghost predicate AreInk(marks: seq<Mark>) {
    forall i :: 0 <= i < |marks| && marks[i].Bare? ==> EndsInk(marks[i].letters)
  }

  lemma PlacedEnds(base: string, mark: Mark)
    requires mark.Bare? ==> EndsInk(mark.letters)
    ensures
      var out := base + Face(mark) + (if mark.Bare? then "" else " ");
      && DropLastBlank(out) == base + Face(mark)
      && out == (base + Face(mark)) + (if mark.Bare? then "" else " ")
  {
    var text := base + Face(mark);
    if mark.Bare? {
      assert text + "" == text && text[|text| - 1] == mark.letters[|mark.letters| - 1];
    } else {
      assert (text + " ")[..|text|] == text;
    }
  }

  /** All that is placed behind `out`, without the last blank. */
  lemma {:induction false} PlacedText(out: string, marks: seq<Mark>)
    requires marks != [] && AreInk(marks)
    ensures DropLastBlank(PlaceAll(out, marks)) ==
            (if Closes(marks[0]) then DropLastBlank(out) else out) + TextOf(marks)
    decreases |marks|
  {
    var mark, rest := marks[0], marks[1..];
    var base := if Closes(mark) then DropLastBlank(out) else out;
    PlacedEnds(base, mark);
    if rest == [] {
      assert Face(mark) + ("" + "") == Face(mark);
    } else {
      PlacedText(Place(out, mark), rest);
      Regroup(base, Face(mark), TextOf(rest));
    }
  }

  lemma Regroup(base: string, face: string, tail: string)
    ensures ((base + face) + " ") + tail == base + (face + (" " + tail))
    ensures ((base + face) + "") + tail == base + (face + ("" + tail))
    ensures (base + face) + tail == base + (face + ("" + tail))
  {
  }

  lemma MarksOfAreInk(token: Token)
    ensures AreInk(MarksOf(token))
  {
  }

  lemma JoinedAreInk(a: seq<Mark>, b: seq<Mark>)
    requires AreInk(a) && AreInk(b)
    ensures AreInk(a + b)
  {
  }

  lemma {:induction false} MarksAreInk(tokens: seq<Token>)
    ensures AreInk(Marks(tokens))
  {
    if tokens != [] && tokens[0].code != NoMore {
      MarksAreInk(tokens[1..]);
      MarksOfAreInk(tokens[0]);
      JoinedAreInk(MarksOf(tokens[0]), Marks(tokens[1..]));
    }
  }

  // ---- the values of tokens ----

  lemma {:induction false} LookupKeepsWord(keywords: Keywords, word: string, i: nat)
    requires i <= |keywords| && IsWordy(word)
    ensures Lookup(keywords, word, i).Some? ==> IsWordy(Lookup(keywords, word, i).value.name)
    decreases |keywords| - i
  {
    if i < |keywords| {
      var name := keywords[i].name;
      if SameIgnoringCase(word, name) {
        forall k | 0 <= k < |name| ensures IsWord(name[k]) {
          assert IsWord(word[k]) && Lower(word[k]) == Lower(name[k]);
        }
      } else {
        LookupKeepsWord(keywords, word, i + 1);
      }
    }
  }

  lemma WordHasValue(keywords: Keywords, word: string, after: string, ticked: bool)
    requires IsWordy(word)
    ensures IsWordy(ValueText(Lexer.Word(keywords, word, after, ticked).token))
  {
    LookupKeepsWord(keywords, word, 0);
  }

  lemma IdentifierHasValue(keywords: Keywords, s: string)
    ensures IsWordy(ValueText(Identifier(keywords, s).token))
  {
    var ticked := StartsWith(s, '`');
    var t := if ticked then s[1..] else s;
    WordHasValue(keywords, t[..Run(IsWord, t)], t[Run(IsWord, t)..], ticked);
  }

  lemma PunctuationHasValue(s: string)
    requires s != "" && IsPunctuation(s[0])
    ensures Speaks(Punctuation(s).token) ==> HasValue(Punctuation(s).token)
  {
    assert IsValue("!") && IsValue("<<") && IsValue(">>") && IsValue("|") && IsValue("&");
    assert IsValue("OR") && IsValue("AND");
  }

  lemma LiteralsDoNotSpeak(s: string)
    requires s != ""
    ensures !Speaks(StringLiteral(s).token) && !Speaks(Number(s).token)
  {
  }

  lemma HeadHasValue(keywords: Keywords, t: string)
    ensures Speaks(Head(keywords, t).token) ==> HasValue(Head(keywords, t).token)
  {
    IdentifierHasValue(keywords, t);
    if t != "" {
      LiteralsDoNotSpeak(t);
      if IsPunctuation(t[0]) {
        PunctuationHasValue(t);
      }
    }
  }

  lemma {:induction false} TokensHaveValues(keywords: Keywords, s: string)
    ensures AllHaveValues(Tokens(keywords, s))
    decreases |s|
  {
    if s != "" {
      HeadHasValue(keywords, SkipBlanks(s));
      var lexed := GetToken(keywords, s);
      if |lexed.rest| < |s| {
        TokensHaveValues(keywords, lexed.rest);
      }
    }
  }

  /** The normalised query is the text of its marks. */
  lemma NormalizedIsTextOfMarks(keywords: Keywords, query: string)
    ensures Normalized(keywords, query) == TextOf(Marks(Tokens(keywords, query)))
  {
    var tokens := Tokens(keywords, query);
    TokensHaveValues(keywords, query);
    RenderIsPlaced("", tokens);
    MarksAreInk(tokens);
    if Marks(tokens) != [] {
      PlacedText("", Marks(tokens));
    }
  }
}
