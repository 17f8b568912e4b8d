/**
 * Does fixing whitespace preserve the meaning of a query? The tokenizer and the stripper are
 * two independently written scanners; on plain text (no comments, quotes or backslashes) the
 * tokenizer reads the same tokens off the stripped text if and only if no blank separated
 * two characters that make one operator.
 */
module StripMeaning {
  import opened Wrappers
  import opened Text
  import opened Lexer
  import opened Strip
  import opened StripCanonical

  /** Characters of text without quotes, backslashes, and bytes no token starts with. */
  predicate PlainChar(c: char) {
    StartsToken(c) && !IsQuote(c) && c != '\\'
  }

  ghost predicate Plain(s: string) {
    forall i :: 0 <= i < |s| ==> PlainChar(s[i])
  }

  /** The stripper drops blanks between them, and then the tokenizer sees one operator. */
  predicate Merges(c: char, d: char) {
    (c == '<' && (d == '=' || d == '<')) || (c == '>' && (d == '=' || d == '<')) || (c == '!' && d == '=')
  }

  predicate MergeAt(s: string, i: nat)
    requires i < |s|
  {
    var t := SkipBlanks(s[i + 1..]);
    |t| < |s| - i - 1 && t != "" && Merges(s[i], t[0])
  }

  /** Some operator is written with blanks inside, as in `< =`. */
  ghost predicate HasMerge(s: string) {
    exists i :: 0 <= i < |s| && MergeAt(s, i)
  }

  /** The stripped text after `last`, on text without comments. */
  function Fixed(last: Option<char>, s: string): string {
    Draw(Significant(last, s))
  }

  /** The same for a string that starts with a non-blank character. */
  function Inked(t: string): string
    requires t != ""
  {
    [t[0]] + Fixed(Some(t[0]), t[1..])
  }

  // ---- the stripped text, character by character ----

  lemma FixedIs(last: Option<char>, s: string)
    ensures var t := SkipBlanks(s);
            Fixed(last, s) == if t == "" then "" else Gap(last, s) + Inked(t)
  {
  }

  lemma FixedOfInk(last: Option<char>, s: string)
    requires s != "" && !IsBlank(s[0])
    ensures Fixed(last, s) == Inked(s)
  {
    assert Run(IsBlank, s) == 0 && SkipBlanks(s) == s;
    FixedIs(last, s);
  }

  predicate IsSeparator(c: char) {
    c == ',' || c == '=' || c == '>' || c == '<' || c == '(' || c == ')'
  }

  /** The next character in the stripped text: the same, a blank, or one that stands close to anything. */
  lemma NextFixed(last: char, s: string)
    ensures
      var f := Fixed(Some(last), s);
      if s != "" && !IsBlank(s[0]) then f != "" && f[0] == s[0]
      else if SkipBlanks(s) == "" then f == ""
      else f != "" && (if Separated(last, SkipBlanks(s)[0]) then f[0] == ' ' else f[0] == SkipBlanks(s)[0])
  {
    FixedIs(Some(last), s);
    if s != "" && !IsBlank(s[0]) {
      FixedOfInk(Some(last), s);
    }
  }

  // ---- runs of word or number characters ----

  /** Classes of characters that are neither blank nor stand close to anything before them. */
  ghost predicate Cohesive(p: char -> bool) {
    forall c :: p(c) ==> !IsBlank(c) && c != ',' && c != '=' && c != '<' && c != '>' && c != '!' && c != '\0'
  }

  lemma {:induction false} FixedCopies(last: char, s: string, n: nat)
    requires n <= |s| && forall i :: 0 <= i < n ==> !IsBlank(s[i])
    ensures Fixed(Some(last), s) == s[..n] + Fixed(Some(if n == 0 then last else s[n - 1]), s[n..])
    decreases n
  {
    if n > 0 {
      FixedOfInk(Some(last), s);
      var tail := s[1..];
      FixedCopies(s[0], tail, n - 1);
      assert tail[n - 1..] == s[n..];
      Glue(s, n, Fixed(Some(s[n - 1]), s[n..]));
    } else {
      assert s[0..] == s;
    }
  }

  lemma Glue(s: string, n: nat, rest: string)
    requires 0 < n <= |s|
    ensures [s[0]] + (s[1..][..n - 1] + rest) == s[..n] + rest
  {
  }

  lemma RunKept(p: char -> bool, last: char, s: string)
    requires Cohesive(p) && (p(last) || last == '`')
    requires !IsSeparator(last)
    requires forall c :: p(c) ==> !IsSeparator(c)
    ensures
      var n, f := Run(p, s), Fixed(Some(last), s);
      && Run(p, f) == n && f[..n] == s[..n]
      && f[n..] == Fixed(Some(if n == 0 then last else s[n - 1]), s[n..])
  {
    var n := Run(p, s);
    var last' := if n == 0 then last else s[n - 1];
    FixedCopies(last, s, n);
    assert s[n..] != "" ==> s[n..][0] == s[n];
    NextFixed(last', s[n..]);
    RunOfJoin(p, s[..n], Fixed(Some(last'), s[n..]));
  }

  lemma RunOfJoin(p: char -> bool, a: string, b: string)
    requires (forall i :: 0 <= i < |a| ==> p(a[i])) && (b == "" || !p(b[0]))
    ensures Run(p, a + b) == |a| && (a + b)[..|a|] == a && (a + b)[|a|..] == b
  {
    RunIs(p, a + b, |a|);
  }

  // ---- the head token ----

  /** The character before the rest. */
  function Before(s: string, rest: string): char
    requires |rest| < |s|
  {
    s[|s| - |rest| - 1]
  }

  /** What is left of the stripped text after its head, if the head is the same. */
  predicate Follows(keywords: Keywords, t: string)
    requires t != ""
  {
    var h, h' := Head(keywords, t), Head(keywords, Inked(t));
    |h.rest| < |t| && h'.token == h.token && h'.rest == Fixed(Some(Before(t, h.rest)), h.rest)
  }

  lemma NoCommentStarts(t: string)
    requires t != "" && CommentFree(t)
    ensures !StartsBlockComment(t) && !StartsLineComment(t)
    ensures !StartsBlockComment(Inked(t)) && !StartsLineComment(Inked(t))
  {
    assert t[0..] == t;
    NextFixed(t[0], t[1..]);
  }

  lemma SecondKept(t: string, second: char)
    requires t != "" && !IsBlank(second) && !(MergeAt(t, 0) && SkipBlanks(t[1..])[0] == second)
    requires Merges(t[0], second) || (t[0] == second && (second == '|' || second == '&' || second == '@'))
    ensures (|Inked(t)| > 1 && Inked(t)[1] == second) <==> (|t| > 1 && t[1] == second)
  {
    NextFixed(t[0], t[1..]);
  }

  lemma DoubleFollows(t: string, second: char, both: Token, alone: Token)
    requires t != "" && !IsBlank(second)
    requires (|Inked(t)| > 1 && Inked(t)[1] == second) <==> (|t| > 1 && t[1] == second)
    ensures var h := Double(t, second, both, alone);
            Double(Inked(t), second, both, alone) == Lexed(h.token, Fixed(Some(Before(t, h.rest)), h.rest))
  {
    if |t| > 1 && t[1] == second {
      InkedTwice(t);
      assert Before(t, t[2..]) == t[1];
    } else {
      assert Before(t, t[1..]) == t[0];
    }
  }

  lemma InkedTwice(t: string)
    requires |t| > 1 && !IsBlank(t[1])
    ensures |Inked(t)| > 1 && Inked(t)[2..] == Fixed(Some(t[1]), t[2..])
  {
    FixedOfInk(Some(t[0]), t[1..]);
    assert t[1..][1..] == t[2..];
    var tail := Fixed(Some(t[1]), t[2..]);
    assert Inked(t) == [t[0]] + ([t[1]] + tail);
    assert ([t[0]] + ([t[1]] + tail))[2..] == tail;
  }

  lemma PunctuationFollows(t: string)
    requires t != "" && IsPunctuation(t[0]) && t[0] != '\\' && !MergeAt(t, 0)
    ensures var h := Punctuation(t);
            Punctuation(Inked(t)) == Lexed(h.token, Fixed(Some(Before(t, h.rest)), h.rest))
  {
    match t[0]
    case '!' =>
      SecondKept(t, '=');
      DoubleFollows(t, '=', Token(Ne, Some("!=")), Token(Not, Some("!")));
    case '<' => ShiftableFollows(t, Token(Le, Some("<=")), Token(ShiftLeft, Some("<<")), Token(Lt, Some("<")));
    case '>' => ShiftableFollows(t, Token(Ge, Some(">=")), Token(ShiftRight, Some(">>")), Token(Gt, Some(">")));
    case '|' =>
      SecondKept(t, '|');
      DoubleFollows(t, '|', Token(Or, Some("OR")), Token(BitOr, Some("|")));
    case '&' =>
      SecondKept(t, '&');
      DoubleFollows(t, '&', Token(And, Some("AND")), Token(BitAnd, Some("&")));
    case '@' =>
      SecondKept(t, '@');
      DoubleFollows(t, '@', Token(GlobalVar, Some("@")), Token(SessionVar, Some("@")));
    case _ => assert Before(t, t[1..]) == t[0];
  }

  lemma ShiftableFollows(t: string, both: Token, shift: Token, alone: Token)
    requires t != "" && (t[0] == '<' || t[0] == '>') && !MergeAt(t, 0)
    ensures var h := Double(t, '=', both, if |t| > 1 && t[1] == '<' then shift else alone);
            var f := Inked(t);
            Double(f, '=', both, if |f| > 1 && f[1] == '<' then shift else alone) ==
            Lexed(h.token, Fixed(Some(Before(t, h.rest)), h.rest))
  {
    SecondKept(t, '=');
    SecondKept(t, '<');
    DoubleFollows(t, '=', both, if |t| > 1 && t[1] == '<' then shift else alone);
  }

  lemma NumberFollows(t: string)
    requires t != "" && IsDigit(t[0])
    ensures var h := Number(t);
            Number(Inked(t)) == Lexed(h.token, Fixed(Some(Before(t, h.rest)), h.rest))
  {
    RunOfInked(IsNumeric, t);
  }

  /** A run that starts with the first character. */
  lemma RunOfInked(p: char -> bool, t: string)
    requires t != "" && p(t[0]) && Cohesive(p) && forall c :: p(c) ==> !IsSeparator(c)
    ensures
      var n, f := Run(p, t), Inked(t);
      n > 0 && Run(p, f) == n && f[..n] == t[..n] && f[n..] == Fixed(Some(t[n - 1]), t[n..])
  {
    var n, f := Run(p, t), Inked(t);
    RunKept(p, t[0], t[1..]);
    assert n == 1 + Run(p, t[1..]);
    InkedTail(t);
    SliceOfTail(f, n);
    SliceOfTail(t, n);
  }

  lemma InkedTail(t: string)
    requires t != ""
    ensures Inked(t)[1..] == Fixed(Some(t[0]), t[1..]) && Inked(t)[0] == t[0]
  {
  }

  lemma SliceOfTail(s: string, n: nat)
    requires 0 < n <= |s|
    ensures s[n..] == s[1..][n - 1..] && s[..n] == [s[0]] + s[1..][..n - 1]
  {
  }

  lemma WordFollows(keywords: Keywords, t: string)
    requires t != "" && IsWord(t[0])
    ensures var h := Identifier(keywords, t);
            |h.rest| < |t| && Identifier(keywords, Inked(t)) == Lexed(h.token, Fixed(Some(Before(t, h.rest)), h.rest))
  {
    RunOfInked(IsWord, t);
    var n, f := Run(IsWord, t), Inked(t);
    BareWord(keywords, t);
    BareWord(keywords, f);
    SameWord(keywords, t[..n], t[n..], f[n..]);
  }

  lemma SameWord(keywords: Keywords, word: string, after: string, after': string)
    ensures Word(keywords, word, after, false).rest == after
    ensures Word(keywords, word, after', false) == Lexed(Word(keywords, word, after, false).token, after')
  {
  }

  lemma TickedFollows(keywords: Keywords, t: string)
    requires t != "" && t[0] == '`'
    ensures var h := Identifier(keywords, t);
            |h.rest| < |t| && Identifier(keywords, Inked(t)) == Lexed(h.token, Fixed(Some(Before(t, h.rest)), h.rest))
  {
    var u := t[1..];
    var n := Run(IsWord, u);
    TickedInked(keywords, t);
    TickedWordFollows(keywords, u[..n], if n == 0 then '`' else u[n - 1], u[n..]);
    TickedWord(keywords, t);
    BeforeAfterTick(t, n, Word(keywords, u[..n], u[n..], true).rest);
  }

  lemma TickedInked(keywords: Keywords, t: string)
    requires StartsWith(t, '`')
    ensures
      var u := t[1..];
      var n := Run(IsWord, u);
      Identifier(keywords, Inked(t)) ==
      Word(keywords, u[..n], Fixed(Some(if n == 0 then '`' else u[n - 1]), u[n..]), true)
  {
    RunKept(IsWord, '`', t[1..]);
    InkedTail(t);
    TickedWord(keywords, Inked(t));
  }

  lemma BeforeAfterTick(t: string, n: nat, rest: string)
    requires 1 + n <= |t| && t[0] == '`'
    requires rest == t[1..][n..] || (StartsWith(t[1..][n..], '`') && rest == t[1..][n..][1..])
    ensures |rest| < |t|
    ensures Before(t, rest) == if rest == t[1..][n..] then (if n == 0 then '`' else t[1..][n - 1]) else '`'
  {
  }

  lemma TickedWordFollows(keywords: Keywords, word: string, last: char, after: string)
    requires !IsSeparator(last)
    ensures
      var h := Word(keywords, word, after, true);
      Word(keywords, word, Fixed(Some(last), after), true) ==
      Lexed(h.token, Fixed(Some(if h.rest == after then last else '`'), h.rest))
  {
    ClosingTickKept(last, after);
  }

  lemma ClosingTickKept(last: char, s: string)
    requires !IsSeparator(last)
    ensures StartsWith(Fixed(Some(last), s), '`') <==> StartsWith(s, '`')
    ensures StartsWith(s, '`') ==> Fixed(Some(last), s)[1..] == Fixed(Some('`'), s[1..])
  {
    NextFixed(last, s);
    if StartsWith(s, '`') {
      FixedOfInk(Some(last), s);
      InkedTail(s);
    }
  }

  lemma HeadFollows(keywords: Keywords, t: string)
    requires t != "" && !IsBlank(t[0]) && PlainChar(t[0]) && CommentFree(t) && !MergeAt(t, 0)
    ensures Follows(keywords, t)
  {
    NoCommentStarts(t);
    HeadProgress(keywords, t);
    if IsPunctuation(t[0]) {
      PunctuationFollows(t);
    } else if IsNumeric(t[0]) {
      NumberFollows(t);
    } else if IsWord(t[0]) {
      WordFollows(keywords, t);
    } else {
      TickedFollows(keywords, t);
    }
  }

  /** Where blanks are dropped inside an operator, the head is another token. */
  lemma MergedHeadDiffers(keywords: Keywords, t: string)
    requires t != "" && CommentFree(t) && MergeAt(t, 0)
    ensures Head(keywords, Inked(t)).token != Head(keywords, t).token
  {
    NoCommentStarts(t);
    NextFixed(t[0], t[1..]);
    assert Run(IsBlank, t[1..]) > 0 && IsBlank(t[1]);
  }

  // ---- all tokens ----

  /** Trailing blanks of the query are read as one empty identifier; the stripped text has none. */
  function Trailing(s: string): seq<Token> {
    if s != "" && IsBlank(s[|s| - 1]) then [EMPTY_IDENT] else []
  }

  lemma TokensOfBlanks(keywords: Keywords, s: string)
    requires Named(keywords) && s != "" && SkipBlanks(s) == ""
    ensures Tokens(keywords, s) == [EMPTY_IDENT] && Trailing(s) == [EMPTY_IDENT] && !HasMerge(s)
  {
    LookupOfEmpty(keywords, 0);
    assert forall i :: 0 <= i < |s| ==> IsBlank(s[i]);
  }

  lemma TokensFromInk(keywords: Keywords, s: string, t: string)
    requires s != "" && t == SkipBlanks(s) && t != "" && |Head(keywords, t).rest| < |t|
    ensures Tokens(keywords, s) == [Head(keywords, t).token] + Tokens(keywords, Head(keywords, t).rest)
  {
  }

  lemma SkipToInked(last: Option<char>, s: string)
    requires SkipBlanks(s) != ""
    ensures Fixed(last, s) != "" && SkipBlanks(Fixed(last, s)) == Inked(SkipBlanks(s))
  {
    FixedIs(last, s);
    var t, gap := SkipBlanks(s), Gap(last, s);
    assert Inked(t)[0] == t[0];
    RunIs(IsBlank, gap + Inked(t), |gap|);
    assert (gap + Inked(t))[|gap|..] == Inked(t);
  }

  lemma PlainTail(s: string, rest: string)
    requires Plain(s) && CommentFree(s) && IsSuffix(rest, s)
    ensures Plain(rest) && CommentFree(rest)
  {
    CommentFreeTail(s, |s| - |rest|);
  }

  /** A blank inside an operator of the query is one of the rest, or of the head itself. */
  lemma MergesOfTail(s: string, rest: string, cut: nat)
    requires IsSuffix(rest, s) && cut == |s| - |rest|
    requires forall i :: 0 <= i < cut ==> !MergeAt(s, i)
    ensures HasMerge(s) <==> HasMerge(rest)
  {
    forall i | 0 <= i < |rest| ensures MergeAt(rest, i) <==> MergeAt(s, cut + i) {
      assert s[cut + i + 1..] == rest[i + 1..];
    }
    if HasMerge(rest) {
      var i :| 0 <= i < |rest| && MergeAt(rest, i);
      assert MergeAt(s, cut + i);
    }
    if HasMerge(s) {
      var i :| 0 <= i < |s| && MergeAt(s, i);
      assert MergeAt(rest, i - cut);
    }
  }

  lemma NoMergeInBlanks(s: string, t: string)
    requires t == SkipBlanks(s)
    ensures forall i :: 0 <= i < |s| - |t| ==> !MergeAt(s, i)
  {
  }

  /** Within the head token no blank follows an operator character, unless the head is merged with what follows. */
  lemma NoMergeInHead(keywords: Keywords, t: string)
    requires t != "" && !IsBlank(t[0]) && PlainChar(t[0]) && CommentFree(t) && !MergeAt(t, 0)
    ensures var h := Head(keywords, t);
            |h.rest| < |t| && (forall i :: 0 <= i < |t| - |h.rest| ==> !MergeAt(t, i)) && !IsBlank(Before(t, h.rest))
  {
    NoCommentStarts(t);
    if IsPunctuation(t[0]) {
      PunctuationIsShort(t);
    } else {
      HeadIsCohesive(keywords, t);
      CohesiveHasNoMerge(t, Head(keywords, t).rest);
    }
  }

  lemma CohesiveHasNoMerge(t: string, rest: string)
    requires |rest| < |t| && forall i :: 0 <= i < |t| - |rest| ==> IsCohesive(t[i])
    ensures (forall i :: 0 <= i < |t| - |rest| ==> !MergeAt(t, i)) && !IsBlank(Before(t, rest))
  {
  }

  predicate IsCohesive(c: char) {
    IsWord(c) || IsNumeric(c) || c == '`'
  }

  /** A number or an identifier is all digits, word characters, dots and ticks. */
  lemma HeadIsCohesive(keywords: Keywords, t: string)
    requires t != "" && !IsBlank(t[0]) && PlainChar(t[0]) && !IsPunctuation(t[0])
    requires !StartsBlockComment(t) && !StartsLineComment(t)
    ensures var h := Head(keywords, t);
            |h.rest| < |t| && forall i :: 0 <= i < |t| - |h.rest| ==> IsCohesive(t[i])
  {
    if !IsNumeric(t[0]) && !IsWord(t[0]) {
      TickedIsCohesive(keywords, t);
    }
  }

  lemma PunctuationIsShort(t: string)
    requires t != "" && IsPunctuation(t[0]) && t[0] != '\\' && !MergeAt(t, 0)
    ensures var h := Punctuation(t);
            |h.rest| < |t| && (forall i :: 0 <= i < |t| - |h.rest| ==> !MergeAt(t, i)) && !IsBlank(Before(t, h.rest))
  {
    PunctuationDrops(t);
    if |Punctuation(t).rest| == |t| - 2 {
      LongIsUnsplit(t);
    }
  }

  /** An operator of two characters has no blank after the first. */
  lemma LongIsUnsplit(t: string)
    requires |t| > 1 && IsPunctuation(t[0]) && t[0] != '\\' && Punctuation(t).rest == t[2..]
    ensures !IsBlank(t[1]) && !MergeAt(t, 1)
  {
  }

  lemma TickedIsCohesive(keywords: Keywords, t: string)
    requires t != "" && t[0] == '`'
    ensures var h := Identifier(keywords, t);
            |h.rest| < |t| && forall i :: 0 <= i < |t| - |h.rest| ==> IsWord(t[i]) || t[i] == '`'
  {
    var u := t[1..];
    var n := Run(IsWord, u);
    WordProgress(keywords, u[..n], u[n..], true);
    forall i | 1 <= i < n + 1 ensures IsWord(t[i]) {
      assert u[i - 1] == t[i];
    }
    assert StartsWith(u[n..], '`') ==> t[n + 1] == '`';
  }

  lemma TrailingOfTail(s: string, t: string, rest: string)
    requires t == SkipBlanks(s) && |rest| < |t| && IsSuffix(rest, t) && !IsBlank(Before(t, rest))
    ensures Trailing(s) == Trailing(rest)
  {
    assert t[|t| - 1] == s[|s| - 1];
    if rest != "" {
      assert rest[|rest| - 1] == t[|t| - 1];
    }
  }

  /**
   * On plain text the tokens of the stripped text are those of the query, but for the empty
   * identifier read off trailing blanks, if and only if no operator is written with blanks inside.
   */
  lemma {:induction false} FixedMeansTheSame(keywords: Keywords, last: Option<char>, s: string)
    requires Named(keywords) && Plain(s) && CommentFree(s)
    ensures Tokens(keywords, Fixed(last, s)) + Trailing(s) == Tokens(keywords, s) <==> !HasMerge(s)
    decreases |s|
  {
    var t := SkipBlanks(s);
    if s == "" {
    } else if t == "" {
      TokensOfBlanks(keywords, s);
      FixedIs(last, s);
    } else {
      assert IsSuffix(t, s);
      PlainTail(s, t);
      SkipToInked(last, s);
      if MergeAt(t, 0) {
        MergedMeansAnother(keywords, last, s, t);
      } else {
        var rest := Head(keywords, t).rest;
        HeadFollows(keywords, t);
        HeadProgress(keywords, t);
        NoMergeInHead(keywords, t);
        PlainTail(t, rest);
        FixedMeansTheSame(keywords, Some(Before(t, rest)), rest);
        UnmergedMeansTheSame(keywords, last, s, t);
      }
    }
  }

  lemma MergedMeansAnother(keywords: Keywords, last: Option<char>, s: string, t: string)
    requires s != "" && t == SkipBlanks(s) && t != "" && CommentFree(t) && MergeAt(t, 0)
    requires Fixed(last, s) != "" && SkipBlanks(Fixed(last, s)) == Inked(t)
    ensures HasMerge(s) && Tokens(keywords, Fixed(last, s)) + Trailing(s) != Tokens(keywords, s)
  {
    MergedHeadDiffers(keywords, t);
    var cut := |s| - |t|;
    assert s[cut + 1..] == t[1..] && MergeAt(s, cut);
    assert (Tokens(keywords, Fixed(last, s)) + Trailing(s))[0] == Head(keywords, Inked(t)).token;
    assert Tokens(keywords, s)[0] == Head(keywords, t).token;
  }

  lemma UnmergedMeansTheSame(keywords: Keywords, last: Option<char>, s: string, t: string)
    requires s != "" && t == SkipBlanks(s) && t != "" && StartsToken(t[0])
    requires Fixed(last, s) != "" && SkipBlanks(Fixed(last, s)) == Inked(t)
    requires Follows(keywords, t) && IsSuffix(Head(keywords, t).rest, t)
    requires !IsBlank(Before(t, Head(keywords, t).rest))
    requires forall i :: 0 <= i < |t| - |Head(keywords, t).rest| ==> !MergeAt(t, i)
    requires
      var rest := Head(keywords, t).rest;
      var fixed := Fixed(Some(Before(t, rest)), rest);
      Tokens(keywords, fixed) + Trailing(rest) == Tokens(keywords, rest) <==> !HasMerge(rest)
    ensures Tokens(keywords, Fixed(last, s)) + Trailing(s) == Tokens(keywords, s) <==> !HasMerge(s)
  {
    var h := Head(keywords, t);
    var fixed := Fixed(Some(Before(t, h.rest)), h.rest);
    HeadProgress(keywords, Inked(t));
    assert StartsToken(t[0]) && Inked(t)[0] == t[0];
    TokensFromInk(keywords, s, t);
    TokensFromInk(keywords, Fixed(last, s), Inked(t));
    TrailingOfTail(s, t, h.rest);
    SameHead(h.token, Tokens(keywords, fixed), Trailing(s), Tokens(keywords, h.rest));
    NoMergeInBlanks(s, t);
    MergesOfTail(t, h.rest, |t| - |h.rest|);
    assert IsSuffix(t, s);
    MergesOfTail(s, t, |s| - |t|);
  }

  lemma SameHead(token: Token, a: seq<Token>, b: seq<Token>, c: seq<Token>)
    ensures ([token] + a) + b == [token] + c <==> a + b == c
  {
    assert ([token] + a) + b == [token] + (a + b);
    assert ([token] + c)[1..] == c && ([token] + (a + b))[1..] == a + b;
  }

  /** Fixing whitespace preserves the meaning of exactly the plain queries without split operators. */
  lemma StripMeansTheSame(keywords: Keywords, query: string)
    requires Named(keywords) && Plain(query) && CommentFree(query)
    ensures Tokens(keywords, StripQuery(query)) + Trailing(query) == Tokens(keywords, query) <==> !HasMerge(query)
  {
    StripIsDraw(None, query);
    FixedMeansTheSame(keywords, None, query);
  }
}
