/** ASCII character classes of the C library, and the scans both tokenizer and stripper make. */
module Text {
  /** isspace: blank, tab, newline, vertical tab, form feed, carriage return. */
  predicate IsBlank(c: char) {
    c == ' ' || 9 <= c as int <= 13
  }

  predicate IsDigit(c: char) {
    '0' <= c <= '9'
  }

  predicate IsAlpha(c: char) {
    'a' <= c <= 'z' || 'A' <= c <= 'Z'
  }

  /** The characters of identifiers and keywords. */
  predicate IsWord(c: char) {
    IsAlpha(c) || IsDigit(c) || c == '_' || c == '$'
  }

  predicate IsNumeric(c: char) {
    IsDigit(c) || c == '.'
  }

  predicate NotNewline(c: char) {
    c != '\n'
  }

  /** The number that a string of digits stands for; none stands for zero. */
  function DecimalValue(digits: string): nat
    requires forall i :: 0 <= i < |digits| ==> IsDigit(digits[i])
  {
    if digits == "" then 0
    else
      var last := digits[|digits| - 1];
      assert IsDigit(last);
      DecimalValue(digits[..|digits| - 1]) * 10 + (last as int - '0' as int)
  }

  /** The length of the longest prefix whose characters all satisfy `p`. */
  function Run(p: char -> bool, s: string): (n: nat)
    ensures n <= |s| && (forall i :: 0 <= i < n ==> p(s[i])) && (n < |s| ==> !p(s[n]))
  {
    if s != "" && p(s[0]) then 1 + Run(p, s[1..]) else 0
  }

  /** Run is the only number with its postcondition. */
  lemma {:induction false} RunIs(p: char -> bool, s: string, n: nat)
    requires n <= |s| && (forall i :: 0 <= i < n ==> p(s[i])) && (n < |s| ==> !p(s[n]))
    ensures Run(p, s) == n
  {
    if n > 0 {
      RunIs(p, s[1..], n - 1);
    }
  }

  /** The string from its first non-blank character on. */
  function SkipBlanks(s: string): string {
    s[Run(IsBlank, s)..]
  }

  /** How far the body of a block comment reaches: up to a star, or a character before a slash, or the last one. */
  function CommentRun(s: string): (n: nat)
    ensures n <= |s|
  {
    if |s| > 1 && s[0] != '*' && s[1] != '/' then 1 + CommentRun(s[1..]) else 0
  }

  predicate StartsBlockComment(s: string) {
    |s| > 1 && s[0] == '/' && s[1] == '*'
  }

  predicate StartsLineComment(s: string) {
    |s| > 1 && s[0] == '-' && s[1] == '-'
  }

  /** The body of the block comment `s` starts with. */
  function BlockBody(s: string): string
    requires StartsBlockComment(s)
  {
    s[2..2 + CommentRun(s[2..])]
  }

  /** What follows the block comment: its closing pair is skipped, unless only one character is left. */
  function AfterBlock(s: string): string
    requires StartsBlockComment(s)
  {
    var n := 2 + CommentRun(s[2..]);
    if |s| - n > 1 then s[n + 2..] else s[n..]
  }

  function LineBody(s: string): string
    requires StartsLineComment(s)
  {
    s[2..2 + Run(NotNewline, s[2..])]
  }

  function AfterLine(s: string): string
    requires StartsLineComment(s)
  {
    var n := 2 + Run(NotNewline, s[2..]);
    if |s| > n then s[n + 1..] else s[n..]
  }

  /** The loop `while (query_len && p(*p)) { ++p; --query_len; }`. */
  method Scan(p: char -> bool, s: string, from: nat) returns (to: nat)
    requires from <= |s|
    ensures to == from + Run(p, s[from..])
  {
    to := from;
    var len := |s| - from;
    while len > 0 && p(s[to])
      invariant from <= to <= |s| && len == |s| - to
      invariant forall i :: 0 <= i < to - from ==> p(s[from..][i])
    {
      to := to + 1;
      len := len - 1;
    }
    RunIs(p, s[from..], to - from);
  }

  method ScanComment(s: string, from: nat) returns (to: nat)
    requires from <= |s|
    ensures to == from + CommentRun(s[from..])
  {
    to := from;
    var len := |s| - from;
    while len > 1 && s[to] != '*' && s[to + 1] != '/'
      invariant from <= to <= |s| && len == |s| - to
      invariant CommentRun(s[from..]) == to - from + CommentRun(s[to..])
    {
      assert s[to..][1..] == s[to + 1..];
      to := to + 1;
      len := len - 1;
    }
  }

  // ---- scans of a string that goes on differently ----

  lemma RunSplit(p: char -> bool, a: string, b: string)
    requires forall i :: 0 <= i < |a| ==> p(a[i])
    ensures Run(p, a + b) == |a| + Run(p, b)
  {
    RunIs(p, a + b, |a| + Run(p, b));
  }

  lemma {:induction false} CommentRunIsBody(body: string, tail: string)
    requires forall i :: 0 <= i < |body| ==> body[i] != '*' && body[i] != '/'
    ensures CommentRun(body + "*/" + tail) == |body|
  {
    if body != "" {
      CommentRunIsBody(body[1..], tail);
      var s := body + "*/" + tail;
      assert s[1..] == body[1..] + "*/" + tail;
    }
  }
}
