/**
 * On queries without comments, the stripped text is a canonical form: it is determined by the
 * non-blank characters and the gaps between them that matter, and it determines them.
 */
module StripCanonical {
  import opened Wrappers
  import opened Text
  import opened Strip

  ghost predicate CommentFree(s: string) {
    forall i :: 0 <= i < |s| ==> !StartsBlockComment(s[i..]) && !StartsLineComment(s[i..])
  }

  /** A non-blank character, and whether a blank is kept in front of it. */
  datatype Glyph = Glyph(ink: char, gap: bool)

  /** The non-blank characters of `s`, each with the gap before it if the gap matters after `last`. */
  function Significant(last: Option<char>, s: string): seq<Glyph>
    decreases |s|
  {
    var t := SkipBlanks(s);
    if t == "" then [] else [Glyph(t[0], Gap(last, s) != "")] + Significant(Some(t[0]), t[1..])
  }

  function Draw(glyphs: seq<Glyph>): string {
    if glyphs == [] then ""
    else (if glyphs[0].gap then " " else "") + [glyphs[0].ink] + Draw(glyphs[1..])
  }

  /** The non-blank characters of `s` with all gaps, however long and of whatever kind. */
  function Shape(s: string): seq<Glyph>
    decreases |s|
  {
    var t := SkipBlanks(s);
    if t == "" then [] else [Glyph(t[0], |t| < |s|)] + Shape(t[1..])
  }

  function Ink(s: string): string {
    if s == "" then "" else (if IsBlank(s[0]) then "" else [s[0]]) + Ink(s[1..])
  }

  // ---- comment-free text ----

  lemma CommentFreeTail(s: string, i: nat)
    requires CommentFree(s) && i <= |s|
    ensures CommentFree(s[i..])
  {
    forall j | 0 <= j < |s[i..]| ensures s[i..][j..] == s[i + j..] {}
  }

  lemma {:induction false} StripIsDraw(last: Option<char>, s: string)
    requires CommentFree(s)
    ensures StripFrom(last, s) == Draw(Significant(last, s))
    decreases |s|
  {
    if s != "" {
      var t := SkipBlanks(s);
      CommentFreeTail(s, |s| - |t|);
      assert t[0..] == t;
      if t != "" {
        CommentFreeTail(t, 1);
        StripIsDraw(Some(t[0]), t[1..]);
      }
    }
  }

  // ---- drawing and reading back ----

  /** What Significant yields: no blank characters, and gaps only where they matter. */
  predicate Readable(last: Option<char>, glyphs: seq<Glyph>)
    decreases |glyphs|
  {
    glyphs == [] ||
    (&& !IsBlank(glyphs[0].ink)
     && (glyphs[0].gap ==> last.Some? && Separated(last.value, glyphs[0].ink))
     && Readable(Some(glyphs[0].ink), glyphs[1..]))
  }

  lemma {:induction false} SignificantIsReadable(last: Option<char>, s: string)
    ensures Readable(last, Significant(last, s))
    decreases |s|
  {
    var t := SkipBlanks(s);
    if t != "" {
      SignificantIsReadable(Some(t[0]), t[1..]);
    }
  }

  lemma {:induction false} ReadBack(last: Option<char>, glyphs: seq<Glyph>)
    requires Readable(last, glyphs)
    ensures Significant(last, Draw(glyphs)) == glyphs
    decreases |glyphs|
  {
    if glyphs != [] {
      var c, tail := glyphs[0].ink, Draw(glyphs[1..]);
      var s := Draw(glyphs);
      var n := if glyphs[0].gap then 1 else 0;
      assert s[n] == c && s[n..] == [c] + tail && s[n..][1..] == tail;
      RunIs(IsBlank, s, n);
      ReadBack(Some(c), glyphs[1..]);
    }
  }

  /**
   * The stripped texts of two queries are the same if and only if the queries have the same
   * non-blank characters with the same significant gaps.
   */
  lemma SameTextIffSameGlyphs(s: string, s': string)
    requires CommentFree(s) && CommentFree(s')
    ensures StripQuery(s) == StripQuery(s') <==> Significant(None, s) == Significant(None, s')
  {
    StripIsDraw(None, s);
    StripIsDraw(None, s');
    SignificantIsReadable(None, s);
    SignificantIsReadable(None, s');
    ReadBack(None, Significant(None, s));
    ReadBack(None, Significant(None, s'));
  }

  // ---- the length and kind of blanks do not matter ----

  lemma {:induction false} SignificantOfShape(last: Option<char>, s: string, s': string)
    requires Shape(s) == Shape(s')
    ensures Significant(last, s) == Significant(last, s')
    decreases |s|
  {
    var t, t' := SkipBlanks(s), SkipBlanks(s');
    if t != "" && t' != "" {
      assert Shape(s)[0] == Glyph(t[0], |t| < |s|) && Shape(s')[0] == Glyph(t'[0], |t'| < |s'|);
      assert Shape(s)[1..] == Shape(t[1..]) && Shape(s')[1..] == Shape(t'[1..]);
      SignificantOfShape(Some(t[0]), t[1..], t'[1..]);
    }
  }

  lemma LeadingBlanksDoNotMatter(s: string)
    ensures Significant(None, SkipBlanks(s)) == Significant(None, s)
  {
    var t := SkipBlanks(s);
    RunIs(IsBlank, t, 0);
    assert SkipBlanks(t) == t;
  }

  /** Queries that differ only in the length and kind of their blank runs share one text. */
  lemma SameShapeSameText(s: string, s': string)
    requires CommentFree(s) && CommentFree(s') && Shape(SkipBlanks(s)) == Shape(SkipBlanks(s'))
    ensures StripQuery(s) == StripQuery(s')
  {
    LeadingBlanksDoNotMatter(s);
    LeadingBlanksDoNotMatter(s');
    SignificantOfShape(None, SkipBlanks(s), SkipBlanks(s'));
    SameTextIffSameGlyphs(s, s');
  }

  // ---- what the text looks like ----

  function Characters(glyphs: seq<Glyph>): string {
    if glyphs == [] then "" else [glyphs[0].ink] + Characters(glyphs[1..])
  }

  lemma {:induction false} InkOfBlanks(s: string)
    ensures Ink(SkipBlanks(s)) == Ink(s)
  {
    if s != "" && IsBlank(s[0]) {
      InkOfBlanks(s[1..]);
      assert SkipBlanks(s) == SkipBlanks(s[1..]);
    } else {
      assert SkipBlanks(s) == s;
    }
  }

  lemma {:induction false} InkIsCharacters(last: Option<char>, s: string)
    ensures Characters(Significant(last, s)) == Ink(s)
    decreases |s|
  {
    InkOfBlanks(s);
    var t := SkipBlanks(s);
    if t != "" {
      InkIsCharacters(Some(t[0]), t[1..]);
    }
  }

  lemma {:induction false} InkOfDraw(last: Option<char>, glyphs: seq<Glyph>)
    requires Readable(last, glyphs)
    ensures Ink(Draw(glyphs)) == Characters(glyphs)
    decreases |glyphs|
  {
    if glyphs != [] {
      InkOfDraw(Some(glyphs[0].ink), glyphs[1..]);
      var s, tail := Draw(glyphs), Draw(glyphs[1..]);
      if glyphs[0].gap {
        assert s[1..] == [glyphs[0].ink] + tail;
        assert s[1..][1..] == tail;
      } else {
        assert s[1..] == tail;
      }
    }
  }

  /** If there is a blank at `i`, it is a ' ' before a non-blank character, and after one or at the start. */
  predicate TidyAt(s: string, i: nat)
    requires i < |s|
  {
    IsBlank(s[i]) ==> s[i] == ' ' && i < |s| - 1 && !IsBlank(s[i + 1]) && (i > 0 ==> !IsBlank(s[i - 1]))
  }

  predicate TidyAfterStart(s: string) {
    forall i :: 0 <= i < |s| ==> TidyAt(s, i)
  }

  /** Every blank is a single ' ' between two non-blank characters. */
  predicate Tidy(s: string) {
    (s != "" ==> !IsBlank(s[0])) && TidyAfterStart(s)
  }

  lemma {:induction false} DrawIsTidy(last: Option<char>, glyphs: seq<Glyph>)
    requires Readable(last, glyphs)
    ensures TidyAfterStart(Draw(glyphs))
    ensures Draw(glyphs) != "" && IsBlank(Draw(glyphs)[0]) ==> last.Some?
    decreases |glyphs|
  {
    if glyphs != [] {
      DrawIsTidy(Some(glyphs[0].ink), glyphs[1..]);
      var s, tail := Draw(glyphs), Draw(glyphs[1..]);
      var n := if glyphs[0].gap then 2 else 1;
      assert s[n - 1] == glyphs[0].ink && s[n..] == tail;
      forall i | 0 <= i < |s| ensures TidyAt(s, i) {
        if i >= n {
          assert TidyAt(tail, i - n);
          assert s[i] == tail[i - n];
          assert i < |s| - 1 ==> s[i + 1] == tail[i - n + 1];
          assert i > n ==> s[i - 1] == tail[i - n - 1];
        }
      }
    }
  }

  /** No glyph completes a comment mark with the one drawn right before it. */
  predicate Quiet(last: Option<char>, glyphs: seq<Glyph>)
    decreases |glyphs|
  {
    glyphs == [] ||
    (&& (last.Some? && !glyphs[0].gap ==> !IsMark(last.value, glyphs[0].ink))
     && Quiet(Some(glyphs[0].ink), glyphs[1..]))
  }

  predicate IsMark(c: char, d: char) {
    (c == '/' && d == '*') || (c == '-' && d == '-')
  }

  lemma NoMarkAcrossGap(last: char, s: string)
    requires CommentFree([last] + s) && SkipBlanks(s) != ""
    ensures Gap(Some(last), s) == "" ==> !IsMark(last, SkipBlanks(s)[0])
  {
    var whole := [last] + s;
    assert whole[0..] == whole;
    if Run(IsBlank, s) == 0 {
      assert whole[1] == s[0];
    }
  }

  lemma CommentFreeAfterBlanks(last: char, s: string)
    requires CommentFree([last] + s)
    ensures CommentFree(SkipBlanks(s))
  {
    var n := 1 + Run(IsBlank, s);
    CommentFreeTail([last] + s, n);
    assert ([last] + s)[n..] == SkipBlanks(s);
  }

  lemma {:induction false} SignificantIsQuiet(last: char, s: string)
    requires CommentFree([last] + s)
    ensures Quiet(Some(last), Significant(Some(last), s))
    decreases |s|
  {
    var t := SkipBlanks(s);
    if t != "" {
      NoMarkAcrossGap(last, s);
      CommentFreeAfterBlanks(last, s);
      assert t == [t[0]] + t[1..];
      SignificantIsQuiet(t[0], t[1..]);
    }
  }

  lemma {:induction false} DrawIsCommentFree(last: char, glyphs: seq<Glyph>)
    requires Quiet(Some(last), glyphs) && Readable(Some(last), glyphs)
    ensures CommentFree([last] + Draw(glyphs))
    decreases |glyphs|
  {
    var s := [last] + Draw(glyphs);
    if glyphs != [] {
      var c, tail := glyphs[0].ink, Draw(glyphs[1..]);
      DrawIsCommentFree(c, glyphs[1..]);
      var n := if glyphs[0].gap then 2 else 1;
      assert s[n..] == [c] + tail;
      forall i | 0 <= i < |s| ensures !StartsBlockComment(s[i..]) && !StartsLineComment(s[i..]) {
        if i >= n {
          assert s[i..] == s[n..][i - n..];
        }
      }
    }
  }

  lemma StripStaysCommentFree(s: string)
    requires CommentFree(s)
    ensures CommentFree(StripQuery(s))
  {
    StripIsDraw(None, s);
    SignificantIsReadable(None, s);
    var t, glyphs := SkipBlanks(s), Significant(None, s);
    if t != "" {
      CommentFreeTail(s, |s| - |t|);
      assert t == [t[0]] + t[1..];
      SignificantIsQuiet(t[0], t[1..]);
      DrawIsCommentFree(t[0], glyphs[1..]);
      assert Draw(glyphs) == [t[0]] + Draw(glyphs[1..]);
    }
  }

  /**
   * The stripped text keeps the non-blank characters exactly and in order, has no leading,
   * trailing or doubled blanks, contains no comment mark, and is its own stripped text.
   */
  lemma StripIsCanonical(s: string)
    requires CommentFree(s)
    ensures
      var text := StripQuery(s);
      Ink(text) == Ink(s) && Tidy(text) && CommentFree(text) && StripQuery(text) == text
  {
    var glyphs := Significant(None, s);
    StripIsDraw(None, s);
    SignificantIsReadable(None, s);
    InkIsCharacters(None, s);
    InkOfDraw(None, glyphs);
    DrawIsTidy(None, glyphs);
    StripStaysCommentFree(s);
    ReadBack(None, glyphs);
    StripIsDraw(None, StripQuery(s));
  }
}
