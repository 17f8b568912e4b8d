/**
 * Queries with comments anywhere in them: what the stripper keeps of each piece of the text, and what it
 * does not. Comments for the server keep their body, plain ones leave nothing.
 */
module StripPieces {
  import opened Wrappers
  import opened Text
  import opened Strip
  import opened StripCanonical
  import opened QueryPolicy

  datatype Piece =
    | Plain(text: string)
    | Block(body: string)
    | Line(body: string)
    | Version(body: string)

  function WritePiece(piece: Piece): string {
    match piece
    case Plain(text) => text
    case Block(body) => "/*" + body + "*/"
    case Line(body) => "--" + body + "\n"
    case Version(body) => "/*!" + body + "*/"
  }

  function Write(pieces: seq<Piece>): string {
    if pieces == [] then "" else WritePiece(pieces[0]) + Write(pieces[1..])
  }

  predicate IsBody(body: string) {
    forall i :: 0 <= i < |body| ==> body[i] != '*' && body[i] != '/'
  }

  /** No comment begins inside the text, nor with its last character and the first of what follows. */
  ghost predicate IsText(text: string, rest: string) {
    && CommentFree(text)
    && (text != "" && rest != "" && text[|text| - 1] == '/' ==> rest[0] != '*')
    && (text != "" && rest != "" && text[|text| - 1] == '-' ==> rest[0] != '-')
  }

  /** The pieces are what the comments of the written query say they are. */
  ghost predicate WellWritten(pieces: seq<Piece>) {
    pieces == [] ||
    (&& WellWritten(pieces[1..])
     && match pieces[0]
        case Plain(text) => IsText(text, Write(pieces[1..]))
        case Block(body) => IsBody(body) && (body != "" ==> body[0] != '!')
        case Line(body) => forall i :: 0 <= i < |body| ==> body[i] != '\n'
        case Version(body) => IsBody(body))
  }

  /** The characters to be kept, blanks aside. */
  function Kept(pieces: seq<Piece>): string {
    if pieces == [] then ""
    else (match pieces[0]
          case Plain(text) => Ink(text)
          case Version(body) => Ink(body)
          case _ => "") + Kept(pieces[1..])
  }

  // ---- one piece, or one character of it ----

  lemma {:induction false} InkOfJoin(a: string, b: string)
    ensures Ink(a + b) == Ink(a) + Ink(b)
  {
    if a == "" {
      assert a + b == b;
    } else {
      assert (a + b)[1..] == a[1..] + b;
      InkOfJoin(a[1..], b);
    }
  }

  lemma CharacterKept(last: Option<char>, s: string)
    requires s != "" && !IsBlank(s[0]) && !StartsBlockComment(s) && !StartsLineComment(s)
    ensures StripFrom(last, s) == [s[0]] + StripFrom(Some(s[0]), s[1..])
  {
    assert SkipBlanks(s) == s;
    assert Turn(last, s) == ([s[0]], s[1..]) by {
      assert "" + [s[0]] == [s[0]];
    }
  }

  lemma OneTurn(last: Option<char>, s: string, appended: string, rest: string)
    requires s != "" && Turn(last, s) == (appended, rest)
    ensures StripFrom(last, s) == appended + StripFrom(LastAfter(last, appended), rest)
  {
  }

  lemma BlockDropped(last: Option<char>, body: string, rest: string)
    requires IsBody(body) && (body != "" ==> body[0] != '!')
    ensures StripFrom(last, "/*" + body + "*/" + rest) == StripFrom(last, rest)
  {
    var s := "/*" + (body + "*/" + rest);
    assert s == "/*" + body + "*/" + rest;
    BlockIsComment(body, rest);
    TurnOfBlock(last, s);
    OneTurn(last, s, "", rest);
  }

  lemma TurnOfBlock(last: Option<char>, s: string)
    requires StartsBlockComment(s) && !StartsVersionComment(s)
    ensures Turn(last, s) == ("", AfterBlock(s))
  {
    assert SkipBlanks(s) == s;
  }

  lemma LineDropped(last: Option<char>, body: string, rest: string)
    requires forall i :: 0 <= i < |body| ==> body[i] != '\n'
    ensures StripFrom(last, "--" + body + "\n" + rest) == StripFrom(last, rest)
  {
    var s := "--" + (body + ("\n" + rest));
    assert s == "--" + body + "\n" + rest;
    LineIsComment(body, rest);
    TurnOfLine(last, s);
    OneTurn(last, s, "", rest);
  }

  lemma TurnOfLine(last: Option<char>, s: string)
    requires StartsLineComment(s) && !StartsBlockComment(s)
    ensures Turn(last, s) == ("", AfterLine(s))
  {
    assert SkipBlanks(s) == s;
  }

  /** The body of a version comment, as it is kept. */
  function VersionText(body: string): string {
    " " + SkipBlanks(body)
  }

  lemma SkipsIntoBody(body: string, rest: string)
    requires IsBody(body)
    ensures SkipBlanks(body + "*/" + rest) == SkipBlanks(body) + "*/" + rest
  {
    var n := Run(IsBlank, body);
    RunIs(IsBlank, body + "*/" + rest, n);
    assert (body + "*/" + rest)[n..] == body[n..] + "*/" + rest;
  }

  lemma VersionKept(last: Option<char>, body: string, rest: string)
    requires IsBody(body)
    ensures StripFrom(last, "/*!" + body + "*/" + rest) ==
            VersionText(body) + StripFrom(LastOf(VersionText(body)), rest)
  {
    var s, text := "/*!" + body + "*/" + rest, SkipBlanks(body);
    assert s[3..] == body + "*/" + rest && |s| > 3;
    SkipsIntoBody(body, rest);
    TurnOfVersion(last, s);
    CutBody(text, rest);
    OneTurn(last, s, VersionText(body), rest);
  }

  lemma TurnOfVersion(last: Option<char>, s: string)
    requires StartsVersionComment(s)
    ensures var u := SkipBlanks(s[3..]); Turn(last, s) == (" " + u[..CommentRun(u)], SkipPair(u[CommentRun(u)..]))
  {
    assert SkipBlanks(s) == s && Gap(last, s) == "";
    var u := SkipBlanks(s[3..]);
    assert "" + (" " + u[..CommentRun(u)]) == " " + u[..CommentRun(u)];
  }

  lemma CutBody(text: string, rest: string)
    requires IsBody(text)
    ensures
      var u := text + "*/" + rest;
      CommentRun(u) == |text| && u[..CommentRun(u)] == text && SkipPair(u[CommentRun(u)..]) == rest
  {
    CommentRunIsBody(text, rest);
    var u := text + "*/" + rest;
    assert u[|text|..] == "*/" + rest;
  }

  /** A leading blank leaves a blank or nothing. */
  lemma BlankShed(last: Option<char>, s: string) returns (gap: string, next: Option<char>)
    requires s != "" && IsBlank(s[0])
    ensures StripFrom(last, s) == gap + StripFrom(next, s[1..]) && Ink(gap) == ""
  {
    var t := SkipBlanks(s);
    SameAfterBlank(s);
    if Gap(last, s) == " " && (s[1..] == "" || !IsBlank(s[1])) {
      gap, next := " ", Some(' ');
      OneBlankShed(last, s);
    } else {
      gap, next := "", last;
      SameGap(last, s);
    }
  }

  lemma SameAfterBlank(s: string)
    requires s != "" && IsBlank(s[0])
    ensures SkipBlanks(s) == SkipBlanks(s[1..])
  {
  }

  lemma SameGap(last: Option<char>, s: string)
    requires s != "" && IsBlank(s[0])
    requires Gap(last, s) == " " ==> s[1..] != "" && IsBlank(s[1])
    ensures StripFrom(last, s) == "" + StripFrom(last, s[1..])
  {
    SameAfterBlank(s);
    assert Gap(last, s) == Gap(last, s[1..]);
    if s[1..] != "" {
      assert Turn(last, s) == Turn(last, s[1..]);
    }
  }

  lemma OneBlankShed(last: Option<char>, s: string)
    requires s != "" && IsBlank(s[0]) && Gap(last, s) == " " && (s[1..] == "" || !IsBlank(s[1]))
    ensures StripFrom(last, s) == " " + StripFrom(Some(' '), s[1..])
  {
    if s[1..] == "" {
      OneTurn(last, s, " ", "");
    } else {
      var (appended', rest) := Turn(Some(' '), s[1..]);
      TurnAfterBlank(last, s);
      OneTurn(last, s, " " + appended', rest);
      OneTurn(Some(' '), s[1..], appended', rest);
      LastAfterBlank(last, appended');
      Chain(StripFrom(last, s), " ", appended', StripFrom(LastAfter(Some(' '), appended'), rest));
    }
  }

  lemma LastAfterBlank(last: Option<char>, appended: string)
    ensures LastAfter(last, " " + appended) == LastAfter(Some(' '), appended)
  {
  }

  lemma Chain(whole: string, a: string, b: string, c: string)
    ensures whole == (a + b) + c <==> whole == a + (b + c)
  {
    assert (a + b) + c == a + (b + c);
  }

  lemma TurnAfterBlank(last: Option<char>, s: string)
    requires s != "" && IsBlank(s[0]) && Gap(last, s) == " " && s[1..] != "" && !IsBlank(s[1])
    ensures
      var (appended, rest) := Turn(last, s);
      var (appended', rest') := Turn(Some(' '), s[1..]);
      rest' == rest && appended == " " + appended'
  {
    SameAfterBlank(s);
    var t := s[1..];
    assert SkipBlanks(t) == t && Gap(Some(' '), t) == "";
  }

  // ---- all pieces ----

  lemma WriteJoined(p: seq<Piece>, q: seq<Piece>)
    ensures Write(p + q) == Write(p) + Write(q)
  {
    if p == [] {
      assert p + q == q && Write(p) + Write(q) == Write(q);
    } else {
      assert (p + q)[1..] == p[1..] + q;
      WriteJoined(p[1..], q);
    }
  }

  /** One piece stripped, and then the rest stripped behind it. */
  lemma PeelPiece(last: Option<char>, piece: Piece, pieces: seq<Piece>) returns (out: string, next: Option<char>)
    requires WellWritten([piece] + pieces)
    ensures StripFrom(last, WritePiece(piece) + Write(pieces)) == out + StripFrom(next, Write(pieces))
    ensures Ink(out) == match piece
                        case Plain(text) => Ink(text)
                        case Version(body) => Ink(body)
                        case _ => ""
  {
    assert ([piece] + pieces)[1..] == pieces;
    match piece {
      case Plain(text) =>
        out, next := PeelText(last, text, Write(pieces));
      case Block(body) =>
        out, next := "", last;
        BlockDropped(last, body, Write(pieces));
      case Line(body) =>
        out, next := "", last;
        LineDropped(last, body, Write(pieces));
      case Version(body) =>
        out, next := VersionText(body), LastOf(VersionText(body));
        VersionKept(last, body, Write(pieces));
        InkOfVersion(body);
    }
  }

  /** The text in front, stripped, and then the rest stripped behind it: nothing in front reaches further. */
  lemma {:induction false} Peel(last: Option<char>, front: seq<Piece>, back: seq<Piece>)
    returns (out: string, next: Option<char>)
    requires WellWritten(front + back)
    ensures StripFrom(last, Write(front + back)) == out + StripFrom(next, Write(back)) && Ink(out) == Kept(front)
    decreases |front|
  {
    if front == [] {
      assert front + back == back;
      return "", last;
    }
    var rest := front[1..] + back;
    assert front + back == [front[0]] + rest && ([front[0]] + rest)[1..] == rest;
    var head, middle := PeelPiece(last, front[0], rest);
    var tail;
    tail, next := Peel(middle, front[1..], back);
    out := head + tail;
    InkOfJoin(head, tail);
    Chain(StripFrom(last, Write(front + back)), head, tail, StripFrom(next, Write(back)));
  }

  lemma InkOfVersion(body: string)
    ensures Ink(VersionText(body)) == Ink(body)
  {
    InkOfBlanks(body);
    assert VersionText(body)[1..] == SkipBlanks(body);
  }

  lemma PeelCharacter(last: Option<char>, text: string, rest: string) returns (out: string, next: Option<char>)
    requires IsText(text, rest) && text != ""
    ensures StripFrom(last, text + rest) == out + StripFrom(next, text[1..] + rest) && Ink(out) == Ink([text[0]])
  {
    var s := text + rest;
    assert s[1..] == text[1..] + rest && s[0] == text[0];
    if IsBlank(s[0]) {
      out, next := BlankShed(last, s);
    } else {
      NoCommentAtText(text, rest);
      CharacterKept(last, s);
      out, next := [s[0]], Some(s[0]);
    }
  }

  lemma {:induction false} PeelText(last: Option<char>, text: string, rest: string)
    returns (out: string, next: Option<char>)
    requires IsText(text, rest)
    ensures StripFrom(last, text + rest) == out + StripFrom(next, rest) && Ink(out) == Ink(text)
    decreases |text|
  {
    if text == "" {
      assert text + rest == rest;
      return "", last;
    }
    TailIsText(text, rest);
    var head, middle := PeelCharacter(last, text, rest);
    var tail;
    tail, next := PeelText(middle, text[1..], rest);
    out := head + tail;
    InkOfJoin(head, tail);
    assert text == [text[0]] + text[1..];
    InkOfJoin([text[0]], text[1..]);
    Chain(StripFrom(last, text + rest), head, tail, StripFrom(next, rest));
  }

  lemma TailIsText(text: string, rest: string)
    requires IsText(text, rest) && text != ""
    ensures IsText(text[1..], rest)
  {
    CommentFreeTail(text, 1);
  }

  lemma NoCommentAtText(text: string, rest: string)
    requires IsText(text, rest) && text != ""
    ensures !StartsBlockComment(text + rest) && !StartsLineComment(text + rest)
  {
    assert text[0..] == text;
  }

  // ---- the theorems ----

  /**
   * Whatever comments a query has, and wherever: the stripped text keeps the characters of its texts and of
   * the bodies of its version comments, in order, and nothing else but blanks.
   */
  lemma StripKeepsThePieces(pieces: seq<Piece>)
    requires WellWritten(pieces)
    ensures Ink(StripQuery(Write(pieces))) == Kept(pieces)
  {
    assert pieces + [] == pieces;
    var out, next := Peel(None, pieces, []);
    assert out + StripFrom(next, "") == out;
  }

  /** The body of a version comment is kept as it is, but for leading blanks, and apart from what is before it. */
  lemma VersionBodiesStandApart(front: seq<Piece>, body: string, back: seq<Piece>)
    returns (before: string, after: string)
    requires WellWritten(front + ([Version(body)] + back))
    ensures StripQuery(Write(front + ([Version(body)] + back))) == before + ((" " + SkipBlanks(body)) + after)
    ensures Ink(before) == Kept(front) && Ink(after) == Kept(back)
  {
    var mine := [Version(body)] + back;
    var next;
    before, next := Peel(None, front, mine);
    TailWellWritten(front, mine);
    after := VersionFirst(next, body, back);
  }

  lemma VersionFirst(last: Option<char>, body: string, back: seq<Piece>) returns (after: string)
    requires WellWritten([Version(body)] + back)
    ensures StripFrom(last, Write([Version(body)] + back)) == (" " + SkipBlanks(body)) + after
    ensures Ink(after) == Kept(back)
  {
    assert ([Version(body)] + back)[1..] == back && back + [] == back;
    VersionKept(last, body, Write(back));
    var end;
    after, end := Peel(LastOf(VersionText(body)), back, []);
    assert after + StripFrom(end, "") == after;
  }

  lemma {:induction false} TailWellWritten(front: seq<Piece>, back: seq<Piece>)
    requires WellWritten(front + back)
    ensures WellWritten(back)
    decreases |front|
  {
    if front == [] {
      assert front + back == back;
    } else {
      assert (front + back)[1..] == front[1..] + back;
      TailWellWritten(front[1..], back);
    }
  }

  // ---- where a blank is kept ----

  /** Between two characters, one blank stands for any number, unless one of them does without it. */
  lemma BlankSurvivesIff(c: char, blanks: string, d: char)
    requires !IsBlank(c) && !IsBlank(d) && blanks != "" && forall i :: 0 <= i < |blanks| ==> IsBlank(blanks[i])
    ensures StripQuery([c] + (blanks + [d])) ==
            if c in ",=<>" || d in ",=<>!\0" || (c in "()" && !IsAlpha(d)) then [c, d] else [c, ' ', d]
  {
    var s, tail := [c] + (blanks + [d]), blanks + [d];
    assert s[0] == c && s[1] == blanks[0] && s[1..] == tail;
    CharacterKept(None, s);
    RunIs(IsBlank, tail, |blanks|);
    assert SkipBlanks(tail) == [d];
    var gap := Gap(Some(c), tail);
    assert Turn(Some(c), tail) == (gap + [d], "");
    OneTurn(Some(c), tail, gap + [d], "");
    assert [c] + (" " + [d]) == [c, ' ', d] && [c] + ("" + [d]) == [c, d];
  }
}
