/** Which queries share a log entry: exactly those with the same marks. */
module LogMemory {
  import opened Wrappers
  import opened Text
  import opened Lexer
  import opened Normalizer
  import opened LogEntries
  import Spelling

  // ---- the marks that tokens leave ----

  predicate IsBareLetter(c: char) {
    || c == ';' || c == '@' || c == '*' || c == '=' || c == '.' || c == '^' || c == '+' || c == '-' || c == '%'
    || c == '/' || c == '(' || c == '<' || c == '>'
  }

  predicate IsSpacedLetter(c: char) {
    c == '?' || c == ',' || c == ')' || c == '!' || c == '|' || c == '&'
  }

  predicate IsMark(mark: Mark) {
    match mark
    case Bare(letters) => |letters| == 1 && IsBareLetter(letters[0])
    case Framed(letters) => letters == "<=" || letters == ">=" || letters == "!="
    case Spaced(letters) => letters == "?" || letters == "," || letters == ")" || IsValue(letters)
  }

  predicate IsShift(mark: Mark) {
    mark == Spaced("<<") || mark == Spaced(">>")
  }

  predicate StartsLess(marks: seq<Mark>) {
    marks != [] && marks[0].letters != "" && marks[0].letters[0] == '<'
  }

  /** Marks as the tokenizer's tokens leave them: only the first character of a shift was consumed. */
  predicate Regular(marks: seq<Mark>) {
    marks == [] ||
    (IsMark(marks[0]) && (IsShift(marks[0]) ==> StartsLess(marks[1..])) && Regular(marks[1..]))
  }

  ghost predicate AreMarks(marks: seq<Mark>) {
    forall i :: 0 <= i < |marks| ==> IsMark(marks[i])
  }

  ghost predicate NoShifts(marks: seq<Mark>) {
    forall i :: 0 <= i < |marks| ==> !IsShift(marks[i])
  }

  lemma MarksAreMarks(token: Token)
    requires Speaks(token) ==> HasValue(token)
    ensures AreMarks(MarksOf(token))
  {
    if Speaks(token) {
      assert MarksOf(token) == [Spaced(ValueText(token))];
    }
  }

  lemma {:induction false} RegularJoined(a: seq<Mark>, b: seq<Mark>)
    requires Regular(b) && AreMarks(a) && NoShifts(a)
    ensures Regular(a + b)
    decreases |a|
  {
    if a == [] {
      assert a + b == b;
    } else {
      assert (a + b)[1..] == a[1..] + b;
      RegularJoined(a[1..], b);
    }
  }

  lemma RegularShift(a: seq<Mark>, b: seq<Mark>)
    requires Regular(b) && AreMarks(a) && |a| == 1 && StartsLess(b)
    ensures Regular(a + b)
  {
    assert (a + b)[1..] == b;
  }

  /** The value of a shift, said by a token that leaves its value. */
  predicate SaysShift(token: Token) {
    Speaks(token) && (ValueText(token) == "<<" || ValueText(token) == ">>")
  }

  lemma ShiftIsSaid(token: Token)
    ensures NoShifts(MarksOf(token)) || (SaysShift(token) && |MarksOf(token)| == 1)
  {
  }

  lemma WordsSayNoShift(token: Token)
    requires IsWordy(ValueText(token))
    ensures !SaysShift(token)
  {
    if ValueText(token) != "" {
      assert IsWord(ValueText(token)[0]);
    }
  }

  lemma ShiftOfPunctuation(t: string)
    requires t != "" && IsPunctuation(t[0]) && SaysShift(Punctuation(t).token)
    ensures Punctuation(t).rest == t[1..] && |t| > 1 && t[1] == '<'
  {
  }

  /** A token whose mark is a shift leaves a `<` to be read next. */
  lemma ShiftLeavesLess(keywords: Keywords, s: string)
    requires s != "" && SaysShift(GetToken(keywords, s).token)
    ensures var rest := GetToken(keywords, s).rest; rest != "" && rest[0] == '<' && |rest| < |s|
  {
    ShiftOfHead(keywords, SkipBlanks(s));
  }

  lemma ShiftOfHead(keywords: Keywords, t: string)
    requires SaysShift(Head(keywords, t).token)
    ensures var rest := Head(keywords, t).rest; rest != "" && rest[0] == '<' && |rest| < |t|
  {
    IdentifierHasValue(keywords, t);
    WordsSayNoShift(Identifier(keywords, t).token);
    if t != "" {
      LiteralsDoNotSpeak(t);
      if IsPunctuation(t[0]) && !StartsBlockComment(t) && !StartsLineComment(t) {
        Spelling.HeadOfPunctuation(keywords, t);
        ShiftOfPunctuation(t);
      }
    }
  }

  lemma LessIsRead(keywords: Keywords, s: string)
    requires s != "" && s[0] == '<'
    ensures GetToken(keywords, s).token.code != NoMore && StartsLess(MarksOf(GetToken(keywords, s).token))
  {
    assert Run(IsBlank, s) == 0 && SkipBlanks(s) == s;
  }

  lemma LessComesNext(keywords: Keywords, s: string)
    requires s != "" && s[0] == '<'
    ensures StartsLess(Marks(Tokens(keywords, s)))
  {
    LessIsRead(keywords, s);
  }

  lemma {:induction false} TokensAreRegular(keywords: Keywords, s: string)
    ensures Regular(Marks(Tokens(keywords, s)))
    decreases |s|
  {
    if s != "" {
      var token, left := GetToken(keywords, s).token, GetToken(keywords, s).rest;
      HeadHasValue(keywords, SkipBlanks(s));
      MarksAreMarks(token);
      var rest := if |left| < |s| then Tokens(keywords, left) else [];
      if |left| < |s| {
        TokensAreRegular(keywords, left);
      }
      ShiftIsSaid(token);
      if NoShifts(MarksOf(token)) {
        RegularJoined(MarksOf(token), Marks(rest));
      } else {
        ShiftLeavesLess(keywords, s);
        LessComesNext(keywords, left);
        RegularShift(MarksOf(token), Marks(rest));
      }
      assert Tokens(keywords, s) == [token] + rest;
      MarksStep(token, rest);
    }
  }

  lemma MarksStep(token: Token, rest: seq<Token>)
    ensures Marks([token] + rest) == if token.code == NoMore then [] else MarksOf(token) + Marks(rest)
  {
    assert ([token] + rest)[1..] == rest;
  }

  // ---- marks whose text can be told apart ----

  /** Two `<`, or two `>`, directly before a `<=`: the text is that of a shift, a `<` and a `=`. */
  predicate LooksLikeShift(marks: seq<Mark>, i: nat) {
    && i + 2 < |marks| && marks[i] == marks[i + 1] && (marks[i] == Bare("<") || marks[i] == Bare(">"))
    && marks[i + 2] == Framed("<=")
  }

  /** No empty name, except at the end, and nothing that looks like a shift. */
  ghost predicate Plain(marks: seq<Mark>) {
    && (forall i :: 0 <= i < |marks| - 1 ==> marks[i] != Spaced(""))
    && (forall i: nat :: i < |marks| ==> !LooksLikeShift(marks, i))
  }

  /** An empty name at the end: it leaves a blank behind a mark that wants one, and nothing behind others. */
  predicate EndsInvisibly(marks: seq<Mark>) {
    && marks != [] && marks[|marks| - 1] == Spaced("")
    && (|marks| > 1 ==> marks[|marks| - 2].Bare?)
  }

  /** The marks without an invisible one at the end, which blanks at the end of a query leave. */
  function Trimmed(marks: seq<Mark>): seq<Mark> {
    if EndsInvisibly(marks) then marks[..|marks| - 1] else marks
  }

  /** Regular, plain, and without an invisible mark at the end, unless it stands alone. */
  predicate Readable(marks: seq<Mark>) {
    marks == [] ||
    (&& IsMark(marks[0])
     && (IsShift(marks[0]) ==> StartsLess(marks[1..]))
     && !LooksLikeShift(marks, 0)
     && (marks[0] == Spaced("") ==> |marks| == 1)
     && (marks[0].Bare? ==> marks[1..] != [Spaced("")])
     && Readable(marks[1..]))
  }

  lemma {:induction false} PlainIsReadable(marks: seq<Mark>)
    requires Regular(marks) && Plain(marks) && (|marks| > 1 ==> !EndsInvisibly(marks))
    ensures Readable(marks)
  {
    if marks != [] {
      var rest := marks[1..];
      forall i: nat | i < |rest| ensures !LooksLikeShift(rest, i) {
        assert !LooksLikeShift(marks, i + 1);
      }
      PlainIsReadable(rest);
    }
  }

  lemma {:induction false} TrimmedIsRegular(marks: seq<Mark>)
    requires Regular(marks) && marks != [] && marks[|marks| - 1] == Spaced("")
    ensures Regular(marks[..|marks| - 1])
  {
    if |marks| > 1 {
      TrimmedIsRegular(marks[1..]);
      assert marks[..|marks| - 1][1..] == marks[1..][..|marks| - 2];
    }
  }

  lemma TrimmedIsReadable(marks: seq<Mark>)
    requires Regular(marks) && Plain(marks)
    ensures Readable(Trimmed(marks)) && Trimmed(marks) != [Spaced("")]
  {
    if EndsInvisibly(marks) {
      TrimmedIsRegular(marks);
      var rest := marks[..|marks| - 1];
      forall i: nat | i < |rest| ensures !LooksLikeShift(rest, i) {
        assert !LooksLikeShift(marks, i);
      }
    }
    PlainIsReadable(Trimmed(marks));
  }

  lemma {:induction false} TrimmedHasSameText(marks: seq<Mark>)
    ensures TextOf(Trimmed(marks)) == TextOf(marks)
  {
    if EndsInvisibly(marks) {
      var kept := marks[..|marks| - 1];
      if |marks| == 1 {
        assert marks[1..] == [];
      } else if |marks| == 2 {
        assert marks[1..] == [Spaced("")] && kept[1..] == [] && marks[1..][1..] == [];
      } else {
        TrimmedHasSameText(marks[1..]);
        assert kept[1..] == marks[1..][..|marks| - 2];
      }
    }
  }

  // ---- the first mark of a text ----

  /** A text that goes on like that behind a `<` or `>` reads as a shift. */
  predicate Continues(c: char, tail: string) {
    (c == '<' || c == '>') && |tail| > 2 && tail[0] == c && tail[1] == ' ' && (tail[2] == '<' || tail[2] == ' ')
  }

  /** The first mark of a text that is not empty. */
  function First(text: string): Mark
    requires text != ""
  {
    var c := text[0];
    if c == ' ' && |text| > 2 then Framed(text[1..3])
    else if IsWord(c) then Spaced(text[..Run(IsWord, text)])
    else if IsSpacedLetter(c) then Spaced([c])
    else if Continues(c, text[1..]) then Spaced([c, c])
    else Bare([c])
  }

  /** What follows the letters of the first mark. */
  function After(marks: seq<Mark>): string
    requires marks != []
  {
    Blank(marks[0], marks[1..]) + TextOf(marks[1..])
  }

  lemma TextStarts(marks: seq<Mark>)
    requires marks != [] && marks[0].letters != ""
    ensures TextOf(marks) != "" && TextOf(marks)[0] == if marks[0].Framed? then ' ' else marks[0].letters[0]
  {
  }

  lemma OnlyInvisibleIsEmpty(marks: seq<Mark>)
    requires Readable(marks) && marks != []
    ensures TextOf(marks) == "" <==> marks == [Spaced("")]
  {
    if marks[0].letters != "" {
      TextStarts(marks);
    } else {
      assert marks == [Spaced("")] && marks[1..] == [];
    }
  }

  /** Behind the letters of a mark that wants a blank: nothing, a blank, or a closing mark. */
  lemma AfterLetters(marks: seq<Mark>)
    requires Readable(marks) && marks != [] && !marks[0].Bare?
    ensures
      var after, rest := After(marks), marks[1..];
      if rest == [] then after == ""
      else if Closes(rest[0]) then after == TextOf(rest) && after != "" && (after[0] == '.' || after[0] == ',')
      else after == " " + TextOf(rest)
  {
    var rest := marks[1..];
    if rest != [] && Closes(rest[0]) {
      TextStarts(rest);
      assert "" + TextOf(rest) == TextOf(rest);
    }
  }

  /** The cases of a mark by its letters. */
  lemma SpacedLetters(letters: string)
    requires IsMark(Spaced(letters)) && letters != ""
    ensures letters[0] != ' '
    ensures
      || IsWordy(letters) || (|letters| == 1 && IsSpacedLetter(letters[0]))
      || (IsShift(Spaced(letters)) && |letters| == 2 && letters[1] == letters[0])
  {
    if IsWordy(letters) {
      assert IsWord(letters[0]);
    }
  }

  lemma BareLetters(c: char)
    requires IsBareLetter(c)
    ensures c != ' ' && !IsWord(c) && !IsSpacedLetter(c)
  {
  }

  lemma FirstWord(letters: string, after: string)
    requires IsWordy(letters) && letters != "" && (after == "" || !IsWord(after[0]))
    ensures First(letters + after) == Spaced(letters)
  {
    var text := letters + after;
    assert text[0] == letters[0] && IsWord(letters[0]);
    RunSplit(IsWord, letters, after);
    assert text[..|letters|] == letters;
  }

  lemma FirstSign(c: char, after: string)
    requires IsSpacedLetter(c)
    ensures First([c] + after) == Spaced([c])
  {
    assert ([c] + after)[0] == c;
  }

  lemma FirstShift(c: char, after: string)
    requires c == '<' || c == '>'
    requires |after| > 1 && after[0] == ' ' && (after[1] == '<' || after[1] == ' ')
    ensures First([c, c] + after) == Spaced([c, c])
  {
    var text := [c, c] + after;
    assert text[0] == c && text[1] == c && text[2] == after[0] && text[3] == after[1];
  }

  lemma FirstBare(c: char, tail: string)
    requires IsBareLetter(c) && !Continues(c, tail)
    ensures First([c] + tail) == Bare([c])
  {
    BareLetters(c);
    var text := [c] + tail;
    assert text[0] == c && text[1..] == tail;
  }

  /** What follows the letters of a shift. */
  lemma AfterShift(marks: seq<Mark>)
    requires Readable(marks) && marks != [] && IsShift(marks[0])
    ensures var after := After(marks); |after| > 1 && after[0] == ' ' && (after[1] == '<' || after[1] == ' ')
  {
    AfterLetters(marks);
    TextStarts(marks[1..]);
  }

  lemma FirstLetters(letters: string, after: string)
    requires IsMark(Spaced(letters)) && letters != "" && (after == "" || !IsWord(after[0]))
    requires IsShift(Spaced(letters)) ==> |after| > 1 && after[0] == ' ' && (after[1] == '<' || after[1] == ' ')
    ensures First(letters + after) == Spaced(letters)
  {
    SpacedLetters(letters);
    if IsWordy(letters) {
      FirstWord(letters, after);
    } else if |letters| == 1 {
      FirstSign(letters[0], after);
      assert letters == [letters[0]];
    } else {
      FirstShift(letters[0], after);
      assert letters == [letters[0], letters[0]];
    }
  }

  lemma AfterIsNoWord(marks: seq<Mark>)
    requires marks != [] && !marks[0].Bare?
    ensures After(marks) == "" || !IsWord(After(marks)[0])
  {
    if marks[1..] != [] && Closes(marks[1..][0]) {
      TextStarts(marks[1..]);
      assert After(marks) == TextOf(marks[1..]);
    }
  }

  lemma SpacedText(marks: seq<Mark>)
    requires marks != [] && marks[0].Spaced?
    ensures TextOf(marks) == marks[0].letters + After(marks)
  {
  }

  lemma LettersOfText(marks: seq<Mark>)
    requires Readable(marks) && TextOf(marks) != "" && marks != []
    ensures marks[0].letters != ""
  {
    OnlyInvisibleIsEmpty(marks);
  }

  lemma FirstOfSpaced(marks: seq<Mark>, text: string)
    requires Readable(marks) && text == TextOf(marks) && text != "" && marks != [] && marks[0].Spaced?
    ensures First(text) == marks[0]
  {
    SpacedText(marks);
    LettersOfText(marks);
    AfterIsNoWord(marks);
    var letters, after := marks[0].letters, After(marks);
    if IsShift(marks[0]) {
      AfterShift(marks);
    }
    assert marks[0] == Spaced(letters) && IsMark(marks[0]);
    FirstLetters(letters, after);
  }

  lemma FirstOfFramed(marks: seq<Mark>)
    requires Readable(marks) && marks != [] && marks[0].Framed?
    ensures TextOf(marks) != "" && First(TextOf(marks)) == marks[0]
  {
    FramedText(marks);
    assert TextOf(marks)[1..3] == marks[0].letters;
  }

  lemma FramedText(marks: seq<Mark>)
    requires Readable(marks) && marks != [] && marks[0].Framed?
    ensures TextOf(marks) == " " + marks[0].letters + After(marks) && |marks[0].letters| == 2
  {
  }

  lemma BareText(marks: seq<Mark>, c: char)
    requires marks != [] && marks[0] == Bare([c])
    ensures TextOf(marks) == [c] + TextOf(marks[1..])
  {
    assert "" + TextOf(marks[1..]) == TextOf(marks[1..]);
  }

  /** A text starts with a blank only before a framed mark. */
  lemma BlankBeforeFramed(marks: seq<Mark>)
    requires Readable(marks) && TextOf(marks) != "" && TextOf(marks)[0] == ' '
    ensures marks != [] && marks[0].Framed?
  {
    OnlyInvisibleIsEmpty(marks);
    TextStarts(marks);
    match marks[0] {
      case Bare(letters) => BareLetters(letters[0]);
      case Spaced(letters) => SpacedLetters(letters);
      case Framed(_) =>
    }
  }

  /** The text of two equal bare marks does not read as a shift unless the marks look like one. */
  lemma NoShiftHere(marks: seq<Mark>, c: char)
    requires Readable(marks) && marks != [] && marks[0] == Bare([c])
    ensures !Continues(c, TextOf(marks[1..]))
  {
    var rest := marks[1..];
    if Continues(c, TextOf(rest)) {
      OnlyInvisibleIsEmpty(rest);
      TextStarts(rest);
      BareLetters(c);
      if rest[0].Bare? {
        SecondBare(marks, c);
      } else {
        SecondSpaced(rest, c);
      }
    }
  }

  lemma SecondBare(marks: seq<Mark>, c: char)
    requires Readable(marks) && |marks| > 1 && marks[0] == Bare([c]) && marks[1] == Bare([c])
    ensures !Continues(c, TextOf(marks[1..]))
  {
    var rest, last := marks[1..], marks[1..][1..];
    BareText(rest, c);
    var text := TextOf(last);
    assert TextOf(rest)[1..] == text;
    if Continues(c, TextOf(rest)) {
      assert text[0] == ' ';
      BlankBeforeFramed(last);
      FramedText(last);
      assert text[1] == last[0].letters[0];
      assert LooksLikeShift(marks, 0);
    }
  }

  lemma SecondSpaced(marks: seq<Mark>, c: char)
    requires Readable(marks) && marks != [] && marks[0].Spaced? && marks[0].letters != ""
    requires IsBareLetter(c)
    ensures !Continues(c, TextOf(marks))
  {
    var letters := marks[0].letters;
    SpacedLetters(letters);
    BareLetters(c);
    assert TextOf(marks) == letters + After(marks);
    if IsWordy(letters) {
      assert IsWord(letters[0]);
    }
  }

  lemma FirstOfBare(marks: seq<Mark>)
    requires Readable(marks) && marks != [] && marks[0].Bare?
    ensures TextOf(marks) != "" && First(TextOf(marks)) == marks[0]
  {
    var c := marks[0].letters[0];
    assert marks[0] == Bare([c]) by { assert marks[0].letters == [c]; }
    BareText(marks, c);
    NoShiftHere(marks, c);
    FirstBare(c, TextOf(marks[1..]));
  }

  lemma FirstIsFirst(marks: seq<Mark>)
    requires Readable(marks) && TextOf(marks) != ""
    ensures marks != [] && First(TextOf(marks)) == marks[0]
  {
    match marks[0] {
      case Bare(_) => FirstOfBare(marks);
      case Spaced(_) => FirstOfSpaced(marks, TextOf(marks));
      case Framed(_) => FirstOfFramed(marks);
    }
  }

  // ---- a text has one reading ----

  lemma RestsAgree(a: seq<Mark>, b: seq<Mark>)
    requires Readable(a) && Readable(b) && a != [] && b != [] && a[0] == b[0] && After(a) == After(b)
    ensures TextOf(a[1..]) == TextOf(b[1..]) && (a[1..] == [] <==> b[1..] == [])
  {
    if a[0].Bare? {
      assert After(a) == TextOf(a[1..]) && After(b) == TextOf(b[1..]);
      if a[1..] != [] {
        OnlyInvisibleIsEmpty(a[1..]);
      }
      if b[1..] != [] {
        OnlyInvisibleIsEmpty(b[1..]);
      }
    } else {
      AfterLetters(a);
      AfterLetters(b);
      if a[1..] != [] && b[1..] != [] && !Closes(a[1..][0]) && !Closes(b[1..][0]) {
        assert TextOf(a[1..]) == After(a)[1..] && TextOf(b[1..]) == After(b)[1..];
      }
    }
  }

  lemma Behind(face: string, after: string)
    ensures (face + after)[|face|..] == after
  {
  }

  lemma SameParts(a: seq<Mark>, b: seq<Mark>)
    requires a != [] && b != [] && a[0] == b[0] && a[1..] == b[1..]
    ensures a == b
  {
    assert a == [a[0]] + a[1..] && b == [b[0]] + b[1..];
  }

  lemma {:induction false} OneReading(a: seq<Mark>, b: seq<Mark>)
    requires Readable(a) && Readable(b) && TextOf(a) == TextOf(b) && (a == [] <==> b == [])
    ensures a == b
  {
    if a != [] {
      OnlyInvisibleIsEmpty(a);
      OnlyInvisibleIsEmpty(b);
      if TextOf(a) != "" {
        FirstIsFirst(a);
        FirstIsFirst(b);
        Behind(Face(a[0]), After(a));
        Behind(Face(b[0]), After(b));
        RestsAgree(a, b);
        OneReading(a[1..], b[1..]);
        SameParts(a, b);
      }
    }
  }

  lemma TextIffMarks(a: seq<Mark>, b: seq<Mark>)
    requires Regular(a) && Regular(b) && Plain(a) && Plain(b)
    ensures TextOf(a) == TextOf(b) <==> Trimmed(a) == Trimmed(b)
  {
    TrimmedHasSameText(a);
    TrimmedHasSameText(b);
    TrimmedIsReadable(a);
    TrimmedIsReadable(b);
    if TextOf(a) == TextOf(b) {
      if Trimmed(a) != [] {
        OnlyInvisibleIsEmpty(Trimmed(a));
      }
      if Trimmed(b) != [] {
        OnlyInvisibleIsEmpty(Trimmed(b));
      }
      OneReading(Trimmed(a), Trimmed(b));
    }
  }

  /** Two plain queries share a log entry if and only if their tokens leave the same marks. */
  lemma SameEntryIffSameMarks(keywords: Keywords, query: string, other: string)
    requires Plain(Marks(Tokens(keywords, query))) && Plain(Marks(Tokens(keywords, other)))
    ensures
      Normalized(keywords, query) == Normalized(keywords, other) <==>
      Trimmed(Marks(Tokens(keywords, query))) == Trimmed(Marks(Tokens(keywords, other)))
  {
    NormalizedIsTextOfMarks(keywords, query);
    NormalizedIsTextOfMarks(keywords, other);
    TokensAreRegular(keywords, query);
    TokensAreRegular(keywords, other);
    TextIffMarks(Marks(Tokens(keywords, query)), Marks(Tokens(keywords, other)));
  }

  // ---- names ----

  /** The values of identifiers, keywords and operators, in order. */
  function NamesOf(tokens: seq<Token>): seq<string> {
    if tokens == [] || tokens[0].code == NoMore then []
    else (if Speaks(tokens[0]) && ValueText(tokens[0]) != "" then [ValueText(tokens[0])] else []) + NamesOf(tokens[1..])
  }

  function NameIn(mark: Mark): seq<string> {
    if mark.Spaced? && mark.letters != "" && mark.letters != "?" && mark.letters != "," && mark.letters != ")" then
      [mark.letters]
    else []
  }

  function NamesIn(marks: seq<Mark>): seq<string> {
    if marks == [] then [] else NameIn(marks[0]) + NamesIn(marks[1..])
  }

  lemma {:induction false} NamesJoined(a: seq<Mark>, b: seq<Mark>)
    ensures NamesIn(a + b) == NamesIn(a) + NamesIn(b)
    decreases |a|
  {
    if a == [] {
      assert a + b == b;
    } else {
      var mark, rest := a[0], a[1..];
      NamesJoined(rest, b);
      Uncons(a, b);
      NamesStep(mark, rest + b);
      NamesStep(mark, rest);
      assert a == [mark] + rest;
    }
  }

  lemma NamesStep(mark: Mark, rest: seq<Mark>)
    ensures NamesIn([mark] + rest) == NameIn(mark) + NamesIn(rest)
  {
    assert ([mark] + rest)[1..] == rest;
  }

  lemma ValueIsNoSign(token: Token)
    requires Speaks(token) && HasValue(token)
    ensures var name := ValueText(token); name != "?" && name != "," && name != ")"
  {
    var name := ValueText(token);
    if IsWordy(name) && name != "" {
      assert IsWord(name[0]);
    }
  }

  lemma NamesOfToken(token: Token)
    requires token.code != NoMore && (Speaks(token) ==> HasValue(token))
    ensures NamesIn(MarksOf(token)) == if Speaks(token) && ValueText(token) != "" then [ValueText(token)] else []
  {
    if Speaks(token) {
      ValueIsNoSign(token);
      assert MarksOf(token) == [Spaced(ValueText(token))] && MarksOf(token)[1..] == [];
    } else {
      SignsNameNothing(token);
    }
  }

  lemma {:induction false} NoNamesIn(marks: seq<Mark>)
    requires forall i :: 0 <= i < |marks| ==> NameIn(marks[i]) == []
    ensures NamesIn(marks) == []
  {
    if marks != [] {
      NoNamesIn(marks[1..]);
    }
  }

  lemma SignsNameNothing(token: Token)
    requires !Speaks(token)
    ensures NamesIn(MarksOf(token)) == []
  {
    NoNamesIn(MarksOf(token));
  }

  lemma {:induction false} NamesAreMarked(tokens: seq<Token>)
    requires AllHaveValues(tokens)
    ensures NamesIn(Marks(tokens)) == NamesOf(tokens)
  {
    if tokens != [] && tokens[0].code != NoMore {
      NamesAreMarked(tokens[1..]);
      NamesOfToken(tokens[0]);
      NamesJoined(MarksOf(tokens[0]), Marks(tokens[1..]));
    }
  }

  lemma TrimmedHasSameNames(marks: seq<Mark>)
    ensures NamesIn(Trimmed(marks)) == NamesIn(marks)
  {
    if EndsInvisibly(marks) {
      NamesJoined(marks[..|marks| - 1], [Spaced("")]);
      assert marks == marks[..|marks| - 1] + [Spaced("")] && [Spaced("")][1..] == [];
    }
  }

  /** A log entry tells which identifiers, keywords and spoken operators its queries have, and in which order. */
  lemma EntryRemembersNames(keywords: Keywords, query: string, other: string)
    requires Plain(Marks(Tokens(keywords, query))) && Plain(Marks(Tokens(keywords, other)))
    requires Normalized(keywords, query) == Normalized(keywords, other)
    ensures NamesOf(Tokens(keywords, query)) == NamesOf(Tokens(keywords, other))
  {
    SameEntryIffSameMarks(keywords, query, other);
    TokensHaveValues(keywords, query);
    TokensHaveValues(keywords, other);
    SameMarksSameNames(Tokens(keywords, query), Tokens(keywords, other));
  }

  lemma SameMarksSameNames(a: seq<Token>, b: seq<Token>)
    requires AllHaveValues(a) && AllHaveValues(b) && Trimmed(Marks(a)) == Trimmed(Marks(b))
    ensures NamesOf(a) == NamesOf(b)
  {
    NamesAreMarked(a);
    NamesAreMarked(b);
    TrimmedHasSameNames(Marks(a));
    TrimmedHasSameNames(Marks(b));
  }

  // ---- marks whose text cannot be told apart ----

  lemma TextStep(mark: Mark, rest: seq<Mark>)
    ensures TextOf([mark] + rest) == Face(mark) + (Blank(mark, rest) + TextOf(rest))
  {
    assert ([mark] + rest)[1..] == rest;
  }

  /** Both start, and their texts go on, in the same way. */
  ghost predicate Alike(b: seq<Mark>, c: seq<Mark>) {
    b != [] && c != [] && Closes(b[0]) == Closes(c[0]) && TextOf(b) == TextOf(c)
  }

  lemma AlikeStep(mark: Mark, b: seq<Mark>, c: seq<Mark>)
    requires Alike(b, c)
    ensures Alike([mark] + b, [mark] + c)
  {
    TextStep(mark, b);
    TextStep(mark, c);
  }

  lemma Uncons(a: seq<Mark>, b: seq<Mark>)
    requires a != []
    ensures a + b == [a[0]] + (a[1..] + b)
  {
  }

  lemma {:induction false} AlikeBehind(a: seq<Mark>, b: seq<Mark>, c: seq<Mark>)
    requires Alike(b, c)
    ensures Alike(a + b, a + c)
    decreases |a|
  {
    if a == [] {
      assert a + b == b && a + c == c;
    } else {
      AlikeBehind(a[1..], b, c);
      AlikeStep(a[0], a[1..] + b, a[1..] + c);
      Uncons(a, b);
      Uncons(a, c);
    }
  }

  /** Two marks that stand by themselves leave their letters. */
  lemma TwoBare(c: char, d: char, rest: seq<Mark>)
    ensures TextOf([Bare([c])] + ([Bare([d])] + rest)) == [c, d] + TextOf(rest)
  {
    TextStep(Bare([c]), [Bare([d])] + rest);
    TextStep(Bare([d]), rest);
  }

  lemma StringParts(blank: string, tail: string)
    ensures " " + "<=" + (blank + tail) == " <=" + (blank + tail) && "" + tail == tail
    ensures "" + (blank + tail) == blank + tail && " " + (['<', '='] + tail) == " <=" + tail
  {
  }

  lemma LessEqualText(gap: seq<Mark>, b: seq<Mark>)
    requires gap == if b == [] || Closes(b[0]) then [] else [Spaced("")]
    ensures TextOf([Framed("<=")] + b) == " <=" + TextOf(gap + b)
  {
    var blank, tail := Blank(Framed("<="), b), TextOf(b);
    TextStep(Framed("<="), b);
    StringParts(blank, tail);
    if gap == [] {
      assert gap + b == b;
    } else {
      TextStep(Spaced(""), b);
    }
  }

  lemma PairText(c: char, gap: seq<Mark>, b: seq<Mark>)
    requires gap == if b == [] || Closes(b[0]) then [] else [Spaced("")]
    ensures TextOf([Bare([c])] + ([Bare([c])] + ([Framed("<=")] + b))) == [c, c] + (" <=" + TextOf(gap + b))
  {
    TwoBare(c, c, [Framed("<=")] + b);
    LessEqualText(gap, b);
  }

  lemma ShiftText(c: char, b: seq<Mark>)
    ensures TextOf([Spaced([c, c])] + ([Bare("<")] + ([Bare("=")] + b))) == [c, c] + (" <=" + TextOf(b))
  {
    TwoBare('<', '=', b);
    var rest := [Bare("<")] + ([Bare("=")] + b);
    TextStep(Spaced([c, c]), rest);
    assert rest[0] == Bare("<") && Blank(Spaced([c, c]), rest) == " ";
    StringParts("", TextOf(b));
  }

  /** Wherever marks look like a shift, other marks have the same text. */
  lemma ShiftTwin(a: seq<Mark>, c: char, b: seq<Mark>)
    requires c == '<' || c == '>'
    ensures
      var gap := if b == [] || Closes(b[0]) then [] else [Spaced("")];
      TextOf(a + ([Bare([c])] + ([Bare([c])] + ([Framed("<=")] + b)))) ==
      TextOf(a + ([Spaced([c, c])] + ([Bare("<")] + ([Bare("=")] + (gap + b)))))
  {
    var gap := if b == [] || Closes(b[0]) then [] else [Spaced("")];
    PairText(c, gap, b);
    ShiftText(c, gap + b);
    var x, y := [Bare([c])] + ([Bare([c])] + ([Framed("<=")] + b)),
                [Spaced([c, c])] + ([Bare("<")] + ([Bare("=")] + (gap + b)));
    assert x[0] == Bare([c]) && y[0] == Spaced([c, c]);
    AlikeBehind(a, x, y);
  }

  /** An empty name in front of a closing mark leaves nothing behind a mark that stands by itself. */
  lemma EmptyTwin(a: seq<Mark>, mark: Mark, b: seq<Mark>)
    requires mark.Bare? && b != [] && Closes(b[0])
    ensures TextOf(a + ([mark] + ([Spaced("")] + b))) == TextOf(a + ([mark] + b))
  {
    TextStep(Spaced(""), b);
    TextStep(mark, [Spaced("")] + b);
    TextStep(mark, b);
    assert "" + ("" + TextOf(b)) == TextOf(b);
    AlikeBehind(a, [mark] + ([Spaced("")] + b), [mark] + b);
  }

  /** A sign in front of text that ends an item. */
  lemma SignInFront(keywords: Keywords, sign: Spelling.Sign, rest: string, others: seq<Token>)
    requires Spelling.EndsItem(rest) && Tokens(keywords, rest) == others
    ensures Tokens(keywords, " " + (Spelling.SignText(sign) + rest)) == Spelling.SignTokens(sign) + others
  {
    Spelling.ReadSpelled(keywords, Spelling.Mark(sign), rest, Spelling.SignTokens(sign), others);
  }

  lemma TwoSigns(keywords: Keywords, x: Spelling.Sign, y: Spelling.Sign)
    ensures
      Tokens(keywords, " " + (Spelling.SignText(x) + (" " + (Spelling.SignText(y) + "")))) ==
      Spelling.SignTokens(x) + (Spelling.SignTokens(y) + [])
  {
    SignInFront(keywords, y, "", []);
    SignInFront(keywords, x, " " + (Spelling.SignText(y) + ""), Spelling.SignTokens(y) + []);
  }

  lemma ThreeSigns(keywords: Keywords, x: Spelling.Sign, y: Spelling.Sign, z: Spelling.Sign)
    ensures
      var last := " " + (Spelling.SignText(z) + "");
      Tokens(keywords, " " + (Spelling.SignText(x) + (" " + (Spelling.SignText(y) + last)))) ==
      Spelling.SignTokens(x) + (Spelling.SignTokens(y) + (Spelling.SignTokens(z) + []))
  {
    TwoSigns(keywords, y, z);
    SignInFront(keywords, x, " " + (Spelling.SignText(y) + (" " + (Spelling.SignText(z) + ""))),
                Spelling.SignTokens(y) + (Spelling.SignTokens(z) + []));
  }

  lemma MarksMore(token: Token, rest: seq<Token>, mark: Mark, marks: seq<Mark>)
    requires token.code != NoMore && MarksOf(token) == [mark] && Marks(rest) == marks
    ensures Marks([token] + rest) == [mark] + marks
  {
    MarksStep(token, rest);
  }

  function LessOf(c: char): Spelling.Sign {
    if c == '<' then Spelling.Less else Spelling.Greater
  }

  function ShiftOf(c: char): Spelling.Sign {
    if c == '<' then Spelling.LeftShift else Spelling.RightShift
  }

  lemma PairSpelled(c: char, x: string, y: string)
    requires x == [c] && y == "<="
    ensures " " + (x + (" " + (x + (" " + (y + ""))))) == " " + [c] + " " + [c] + " <="
  {
  }

  lemma ShiftSpelled(c: char, x: string, y: string)
    requires x == [c, '<'] && y == "="
    ensures " " + (x + (" " + (y + ""))) == " " + [c] + "< ="
  {
  }

  lemma ThreeMarks(a: Token, b: Token, d: Token, x: Mark, y: Mark, z: Mark)
    requires a.code != NoMore && b.code != NoMore && d.code != NoMore
    requires MarksOf(a) == [x] && MarksOf(b) == [y] && MarksOf(d) == [z]
    ensures Marks([a] + ([b] + ([d] + []))) == [x] + ([y] + ([z] + []))
  {
    MarksMore(d, [], z, []);
    MarksMore(b, [d] + [], y, [z] + []);
    MarksMore(a, [b] + ([d] + []), x, [y] + ([z] + []));
  }

  lemma PairMarks(c: char, tokens: seq<Token>)
    requires c == '<' || c == '>'
    requires tokens == Spelling.SignTokens(LessOf(c)) + (Spelling.SignTokens(LessOf(c)) +
                         (Spelling.SignTokens(Spelling.LessEqual) + []))
    ensures Marks(tokens) == [Bare([c])] + ([Bare([c])] + ([Framed("<=")] + []))
  {
    var a, b := Token(if c == '<' then Lt else Gt, Some([c])), Token(Le, Some("<="));
    ThreeMarks(a, a, b, Bare([c]), Bare([c]), Framed("<="));
  }

  lemma ShiftMarks(c: char, tokens: seq<Token>)
    requires c == '<' || c == '>'
    requires tokens == Spelling.SignTokens(ShiftOf(c)) + (Spelling.SignTokens(Spelling.Equals) + [])
    ensures Marks(tokens) == [Spaced([c, c])] + ([Bare("<")] + ([Bare("=")] + []))
  {
    var a := Token(if c == '<' then ShiftLeft else ShiftRight, Some([c, c]));
    var b, d := Token(Lt, Some("<")), Token(Eq, None);
    ThreeMarks(a, b, d, Spaced([c, c]), Bare("<"), Bare("="));
    assert tokens == [a] + ([b] + ([d] + []));
  }

  lemma PairIsRead(keywords: Keywords, c: char, x: Spelling.Sign, y: Spelling.Sign, pair: string)
    requires (c == '<' || c == '>') && x == LessOf(c) && y == Spelling.LessEqual
    requires pair == " " + (Spelling.SignText(x) + (" " + (Spelling.SignText(x) + (" " + (Spelling.SignText(y) + "")))))
    ensures Marks(Tokens(keywords, pair)) == [Bare([c])] + ([Bare([c])] + ([Framed("<=")] + []))
  {
    ThreeSigns(keywords, x, x, y);
    PairMarks(c, Tokens(keywords, pair));
  }

  lemma ShiftIsRead(keywords: Keywords, c: char, x: Spelling.Sign, y: Spelling.Sign, shift: string)
    requires (c == '<' || c == '>') && x == ShiftOf(c) && y == Spelling.Equals
    requires shift == " " + (Spelling.SignText(x) + (" " + (Spelling.SignText(y) + "")))
    ensures Marks(Tokens(keywords, shift)) == [Spaced([c, c])] + ([Bare("<")] + ([Bare("=")] + []))
  {
    TwoSigns(keywords, x, y);
    ShiftMarks(c, Tokens(keywords, shift));
  }

  /** A query of each kind: different marks, one log entry. */
  lemma ShiftSharesAnEntry(keywords: Keywords, c: char, pair: string, shift: string)
    requires (c == '<' || c == '>') && pair == " " + [c] + " " + [c] + " <=" && shift == " " + [c] + "< ="
    ensures Normalized(keywords, pair) == Normalized(keywords, shift)
    ensures Marks(Tokens(keywords, pair)) != Marks(Tokens(keywords, shift))
  {
    PairSpelled(c, Spelling.SignText(LessOf(c)), Spelling.SignText(Spelling.LessEqual));
    ShiftSpelled(c, Spelling.SignText(ShiftOf(c)), Spelling.SignText(Spelling.Equals));
    PairIsRead(keywords, c, LessOf(c), Spelling.LessEqual, pair);
    ShiftIsRead(keywords, c, ShiftOf(c), Spelling.Equals, shift);
    SameTextOfBoth(keywords, c, pair, shift);
  }

  lemma SameTextOfBoth(keywords: Keywords, c: char, pair: string, shift: string)
    requires c == '<' || c == '>'
    requires Marks(Tokens(keywords, pair)) == [Bare([c])] + ([Bare([c])] + ([Framed("<=")] + []))
    requires Marks(Tokens(keywords, shift)) == [Spaced([c, c])] + ([Bare("<")] + ([Bare("=")] + []))
    ensures Normalized(keywords, pair) == Normalized(keywords, shift)
    ensures Marks(Tokens(keywords, pair)) != Marks(Tokens(keywords, shift))
  {
    NormalizedIsTextOfMarks(keywords, pair);
    NormalizedIsTextOfMarks(keywords, shift);
    TwinTexts(c, Marks(Tokens(keywords, pair)), Marks(Tokens(keywords, shift)));
  }

  lemma TwinTexts(c: char, a: seq<Mark>, b: seq<Mark>)
    requires c == '<' || c == '>'
    requires a == [Bare([c])] + ([Bare([c])] + ([Framed("<=")] + []))
    requires b == [Spaced([c, c])] + ([Bare("<")] + ([Bare("=")] + []))
    ensures TextOf(a) == TextOf(b) && a != b
  {
    ShiftTwin([], c, []);
    assert [] + a == a && [] + b == b && a[0] != b[0];
    assert [Spaced([c, c])] + ([Bare("<")] + ([Bare("=")] + ([] + []))) == b;
  }
}
