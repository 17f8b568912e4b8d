/**
 * Query text normalisation for the cache key: comments go, whitespace is fixed
 * (mysqlnd_qc_query_strip_comments_and_fix_ws).
 */
module Strip {
  import opened Wrappers
  import opened Text

  /** A run of blanks between these two characters leaves one blank behind. */
  predicate Separated(previous: char, next: char) {
    && previous != ',' && previous != '=' && previous != '>' && previous != '<'
    && (previous == '(' || previous == ')' ==> IsAlpha(next))
    && next != '\0' && next != ',' && next != '=' && next != '<' && next != '>' && next != '!'
  }

  /** The source looks at the terminating NUL when the query is used up. */
  function NextChar(s: string): char {
    if s == "" then '\0' else s[0]
  }

  /** The blank that stands for the blanks `s` starts with, after the last character of the output. */
  function Gap(last: Option<char>, s: string): string {
    var t := SkipBlanks(s);
    if |t| < |s| && last.Some? && Separated(last.value, NextChar(t)) then " " else ""
  }

  function LastOf(out: string): Option<char> {
    if out == "" then None else Some(out[|out| - 1])
  }

  /** A comment the server interprets; its body is kept. */
  predicate StartsVersionComment(s: string) {
    StartsBlockComment(s) && |s| > 3 && s[2] == '!'
  }

  /** One turn of the loop: what it appends, and what is left of the query. */
  function Turn(last: Option<char>, s: string): (r: (string, string))
    requires s != ""
    ensures |r.1| < |s|
  {
    var t, gap := SkipBlanks(s), Gap(last, s);
    if StartsVersionComment(t) then
      var u := SkipBlanks(t[3..]);
      (gap + (" " + u[..CommentRun(u)]), SkipPair(u[CommentRun(u)..]))
    else if StartsBlockComment(t) then (gap, AfterBlock(t))
    else if StartsLineComment(t) then (gap, AfterLine(t))
    else if t == "" then (gap, "")
    else (gap + [t[0]], t[1..])
  }

  /** Skips the two characters that close a block comment, unless there is only one. */
  function SkipPair(s: string): string {
    if |s| > 1 then s[2..] else s
  }

  /** The last character of an output that ended in `last`, once `appended` is there. */
  function LastAfter(last: Option<char>, appended: string): Option<char> {
    if appended == "" then last else LastOf(appended)
  }

  /** What is appended to an output that ends in `last`, for the rest `s` of the query. */
  function StripFrom(last: Option<char>, s: string): string
    decreases |s|
  {
    if s == "" then ""
    else
      var (appended, rest) := Turn(last, s);
      appended + StripFrom(LastAfter(last, appended), rest)
  }

  function StripQuery(query: string): string {
    StripFrom(None, query)
  }

  lemma Regroup(out: string, appended: string, tail: string)
    ensures out + (appended + tail) == (out + appended) + tail
    ensures LastOf(out + appended) == LastAfter(LastOf(out), appended)
  {
  }

  lemma OutputGrows(out: string, s: string, appended: string, rest: string)
    requires s != "" && Turn(LastOf(out), s) == (appended, rest)
    ensures out + StripFrom(LastOf(out), s) == (out + appended) + StripFrom(LastOf(out + appended), rest)
  {
    Regroup(out, appended, StripFrom(LastAfter(LastOf(out), appended), rest));
  }

  /** The source returns NULL for an empty query; otherwise the text, which it ends with a NUL. */
  method StripCommentsAndFixWhitespace(query: string) returns (stripped: Option<string>)
    ensures stripped == if query == "" then None else Some(StripQuery(query))
  {
    if query == "" {
      return None;
    }
    var out, p := "", 0;
    while p < |query|
      invariant p <= |query|
      invariant out + StripFrom(LastOf(out), query[p..]) == StripQuery(query)
    {
      ghost var turn := Turn(LastOf(out), query[p..]);
      OutputGrows(out, query[p..], turn.0, turn.1);
      out, p := StripOnce(query, p, out);
    }
    assert query[p..] == "" && out + "" == out;
    stripped := Some(out);
  }

  /** The body of the loop. */
  method StripOnce(query: string, from: nat, out0: string) returns (out: string, p: nat)
    requires from < |query|
    ensures from < p <= |query|
    ensures var (appended, rest) := Turn(LastOf(out0), query[from..]);
            out == out0 + appended && query[p..] == rest
  {
    out, p := FixBlanks(query, from, out0);
    ghost var gap := Gap(LastOf(out0), query[from..]);
    if |query| - p > 1 && query[p] == '/' && query[p + 1] == '*' {
      if |query| - p > 3 && query[p + 2] == '!' {
        ghost var t := query[p..];
        out, p := KeepVersionComment(query, p, out);
        Regroup(out0, gap, " " + SkipBlanks(t[3..])[..CommentRun(SkipBlanks(t[3..]))]);
      } else {
        p := SkipComment(query, p);
      }
    } else if |query| - p > 1 && query[p] == '-' && query[p + 1] == '-' {
      p := SkipLine(query, p);
    } else if p < |query| {
      Regroup(out0, gap, [query[p]]);
      out := out + [query[p]];
      p := p + 1;
    }
  }

  /** Skips blanks, and puts one blank in their place if it matters. */
  method FixBlanks(query: string, from: nat, out0: string) returns (out: string, p: nat)
    requires from < |query|
    ensures from <= p <= |query| && query[p..] == SkipBlanks(query[from..])
    ensures out == out0 + Gap(LastOf(out0), query[from..])
  {
    p := Scan(IsBlank, query, from);
    out := out0;
    var next := if p < |query| then query[p] else '\0';
    assert query[p..] == SkipBlanks(query[from..]);
    if p > from && out != "" && Separated(out[|out| - 1], next) {
      out := out + " ";
    }
  }

  method SkipComment(query: string, from: nat) returns (p: nat)
    requires from <= |query| && StartsBlockComment(query[from..])
    ensures from < p <= |query| && query[p..] == AfterBlock(query[from..])
  {
    p := ScanComment(query, from + 2);
    assert query[from..][2..] == query[from + 2..];
    if |query| - p > 1 {
      p := p + 2;
    }
  }

  method SkipLine(query: string, from: nat) returns (p: nat)
    requires from <= |query| && StartsLineComment(query[from..])
    ensures from < p <= |query| && query[p..] == AfterLine(query[from..])
  {
    p := Scan(NotNewline, query, from + 2);
    assert query[from..][2..] == query[from + 2..];
    if |query| - p > 0 {
      p := p + 1;
    }
  }

  lemma SliceOfSlice(s: string, from: nat, n: nat)
    requires from + n <= |s|
    ensures s[from..][n..] == s[from + n..] && s[from..][..n] == s[from..from + n]
  {
  }

  lemma SkippedIs(query: string, from: nat, body: nat)
    requires from + 3 <= |query| && body == from + 3 + Run(IsBlank, query[from + 3..])
    ensures SkipBlanks(query[from..][3..]) == query[body..]
  {
    SliceOfSlice(query, from, 3);
    SliceOfSlice(query, from + 3, body - from - 3);
  }

  method KeepVersionComment(query: string, from: nat, out0: string) returns (out: string, p: nat)
    requires from <= |query| && StartsVersionComment(query[from..])
    ensures from < p <= |query|
    ensures var u := SkipBlanks(query[from..][3..]);
            out == out0 + (" " + u[..CommentRun(u)]) && query[p..] == SkipPair(u[CommentRun(u)..])
  {
    var body := Scan(IsBlank, query, from + 3);
    SkippedIs(query, from, body);
    out, p := KeepBody(query, body, out0);
  }

  method KeepBody(query: string, body: nat, out0: string) returns (out: string, p: nat)
    requires body <= |query|
    ensures body <= p <= |query|
    ensures var u := query[body..];
            out == out0 + (" " + u[..CommentRun(u)]) && query[p..] == SkipPair(u[CommentRun(u)..])
  {
    p := ScanComment(query, body);
    SliceOfSlice(query, body, p - body);
    out := out0 + (" " + query[body..p]);
    if |query| - p > 1 {
      SliceOfSlice(query, p, 2);
      p := p + 2;
    }
  }
}
