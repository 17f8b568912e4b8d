/**
 * Patterns on table names that say what to cache (mysqlnd_qc_match_wild, mysqlnd_qc_user_should_cache),
 * against LIKE with a backslash escape (section 8.5 of ISO/IEC 9075-2:2003).
 */
module Wildcard {
  import opened Wrappers
  import opened HashKey

  /** A C string: the terminating NUL is not part of it, and there is no other. */
  type CStr = s: string | Free('\0', s)

  /** The character a pointer into a C string points at. */
  function At(s: CStr, i: nat): char
    requires i <= |s|
  {
    if i < |s| then s[i] else '\0'
  }

  // ---- LIKE ----

  /** An escape at the end of a pattern escapes nothing; no string matches it. */
  datatype Element = Literal(c: char) | AnyOne | AnyMany | Broken

  function Parse(wild: string): seq<Element> {
    if wild == "" then []
    else if wild[0] == '%' then [AnyMany] + Parse(wild[1..])
    else if wild[0] == '_' then [AnyOne] + Parse(wild[1..])
    else if wild[0] != '\\' then [Literal(wild[0])] + Parse(wild[1..])
    else if |wild| == 1 then [Broken]
    else [Literal(wild[1])] + Parse(wild[2..])
  }

  predicate Like(s: string, pattern: seq<Element>)
    decreases |pattern|
  {
    if pattern == [] then s == ""
    else
      match pattern[0]
      case Literal(c) => s != "" && s[0] == c && Like(s[1..], pattern[1..])
      case AnyOne => s != "" && Like(s[1..], pattern[1..])
      case AnyMany => exists n :: 0 <= n <= |s| && Like(s[n..], pattern[1..])
      case Broken => false
  }

  /** The pattern up to its first `%`. */
  function Cut(pattern: seq<Element>): seq<Element> {
    if pattern == [] then [] else if pattern[0] == AnyMany then [AnyMany] else [pattern[0]] + Cut(pattern[1..])
  }

  /** What follows the first `%`. */
  function Beyond(pattern: seq<Element>): seq<Element> {
    if pattern == [] then [] else if pattern[0] == AnyMany then pattern[1..] else Beyond(pattern[1..])
  }

  // ---- the matcher ----

  /** What is left of the string matches what is left of the pattern up to its first `%`. */
  predicate Accepts(s: string, i: nat, wild: string, j: nat)
    requires i <= |s| && j <= |wild|
  {
    Like(s[i..], Cut(Parse(wild[j..])))
  }

  lemma AcceptsAtEnd(s: CStr, i: nat, wild: CStr)
    requires i <= |s|
    ensures Accepts(s, i, wild, |wild|) <==> i == |s|
  {
  }

  lemma AcceptsStep(s: string, i: nat, wild: string, j: nat)
    requires i <= |s| && j < |wild|
    ensures wild[j] == '%' ==> Accepts(s, i, wild, j)
    ensures wild[j] == '_' ==> (Accepts(s, i, wild, j) <==> i < |s| && Accepts(s, i + 1, wild, j + 1))
    ensures wild[j] != '%' && wild[j] != '_' && wild[j] != '\\' ==>
              (Accepts(s, i, wild, j) <==> i < |s| && s[i] == wild[j] && Accepts(s, i + 1, wild, j + 1))
  {
    assert wild[j..][1..] == wild[j + 1..];
    if i < |s| {
      assert s[i..][1..] == s[i + 1..];
    }
    if wild[j] == '%' {
      assert Like(s[i..][|s| - i..], []);
    }
  }

  lemma AcceptsEscaped(s: string, i: nat, wild: string, j: nat)
    requires i <= |s| && j < |wild| && wild[j] == '\\'
    ensures Accepts(s, i, wild, j) <==>
            i < |s| && j + 1 < |wild| && s[i] == wild[j + 1] && Accepts(s, i + 1, wild, j + 2)
  {
    if j + 1 < |wild| {
      assert wild[j..][2..] == wild[j + 2..];
    }
    if i < |s| {
      assert s[i..][1..] == s[i + 1..];
    }
  }

  /** The matcher stops at the first unescaped `%` and accepts: it matches the pattern up to there. */
  method MatchWild(str: Option<CStr>, wildstr: Option<CStr>) returns (matches: bool)
    ensures matches <==> str.Some? && wildstr.Some? && Accepts(str.value, 0, wildstr.value, 0)
  {
    if str.None? || wildstr.None? {
      return false;
    }
    var s, w := str.value, wildstr.value;
    var i, j := 0, 0;
    while true
      invariant i <= |s| && j <= |w| && (Accepts(s, i, w, j) <==> Accepts(s, 0, w, 0))
      decreases |w| - j
    {
      ghost var start := j;
      while At(w, j) != '%' && At(w, j) != '_'
        invariant i <= |s| && start <= j <= |w| && (Accepts(s, i, w, j) <==> Accepts(s, 0, w, 0))
        decreases |w| - j
      {
        AcceptsAtEnd(s, i, w);
        if At(w, j) == '\\' {
          AcceptsEscaped(s, i, w, j);
          j := j + 1;
          if At(w, j) == '\0' {
            return false;
          }
        } else if j < |w| {
          AcceptsStep(s, i, w, j);
        }
        if At(s, i) != At(w, j) {
          return false;
        } else if At(s, i) == '\0' {
          return true;
        }
        i, j := i + 1, j + 1;
      }
      AcceptsStep(s, i, w, j);
      if At(w, j) == '%' {
        return true;
      }
      if At(s, i) == '\0' {
        return false;
      }
      i, j := i + 1, j + 1;
    }
  }

  // ---- how it compares with LIKE ----

  lemma {:induction false} LikeTheCut(s: string, pattern: seq<Element>)
    requires Like(s, pattern)
    ensures Like(s, Cut(pattern))
    decreases |pattern|
  {
    if pattern != [] {
      if pattern[0] == AnyMany {
        assert Like(s[|s|..], []);
      } else {
        LikeTheCut(s[1..], pattern[1..]);
      }
    }
  }

  /** Whatever is LIKE the pattern is accepted. */
  lemma LikeIsAccepted(s: string, wild: string)
    requires Like(s, Parse(wild))
    ensures Accepts(s, 0, wild, 0)
  {
    LikeTheCut(s, Parse(wild));
    assert s[0..] == s && wild[0..] == wild;
  }

  predicate OnlyMany(pattern: seq<Element>) {
    forall i :: 0 <= i < |pattern| ==> pattern[i] == AnyMany
  }

  lemma {:induction false} ManyMatchAll(s: string, pattern: seq<Element>)
    requires OnlyMany(pattern) && pattern != []
    ensures Like(s, pattern)
    decreases |pattern|
  {
    if |pattern| == 1 {
      assert Like(s[|s|..], pattern[1..]);
    } else {
      ManyMatchAll(s[0..], pattern[1..]);
    }
  }

  lemma {:induction false} ManyMatchNothing(pattern: seq<Element>)
    ensures Like("", pattern) <==> OnlyMany(pattern)
    decreases |pattern|
  {
    if pattern != [] {
      ManyMatchNothing(pattern[1..]);
      assert ""[0..] == "";
      if pattern[0] == AnyMany {
        assert OnlyMany(pattern[1..]) ==> OnlyMany(pattern);
        assert Like("", pattern) <==> Like(""[0..], pattern[1..]);
      }
    }
  }

  lemma {:induction false} ExactOnOnlyMany(s: string, pattern: seq<Element>)
    requires OnlyMany(Beyond(pattern)) && Like(s, Cut(pattern))
    ensures Like(s, pattern)
    decreases |pattern|
  {
    if pattern != [] {
      if pattern[0] == AnyMany {
        ManyMatchAll(s, pattern);
      } else {
        ExactOnOnlyMany(s[1..], pattern[1..]);
      }
    }
  }

  /** A shortest string for the pattern up to its first `%`. */
  function Shortest(pattern: seq<Element>): string {
    if pattern == [] || pattern[0] == AnyMany then ""
    else [if pattern[0].Literal? then pattern[0].c else 'x'] + Shortest(pattern[1..])
  }

  /** Broken elements come last. */
  predicate Parsed(pattern: seq<Element>) {
    forall i :: 0 <= i < |pattern| && pattern[i] == Broken ==> i == |pattern| - 1
  }

  lemma {:induction false} ParseIsParsed(wild: string)
    ensures Parsed(Parse(wild))
    decreases |wild|
  {
    if wild != "" && wild != "\\" {
      ParseIsParsed(if wild[0] == '\\' then wild[2..] else wild[1..]);
    }
  }

  lemma {:induction false} ShortestSeparates(pattern: seq<Element>)
    requires Parsed(pattern) && !OnlyMany(Beyond(pattern))
    ensures Like(Shortest(pattern), Cut(pattern)) && !Like(Shortest(pattern), pattern)
    decreases |pattern|
  {
    if pattern[0] == AnyMany {
      assert Like(""[0..], []);
      ManyMatchNothing(pattern[1..]);
      assert !Like(""[0..], pattern[1..]);
    } else {
      ShortestSeparates(pattern[1..]);
      assert Shortest(pattern)[1..] == Shortest(pattern[1..]);
    }
  }

  /** The matcher agrees with LIKE on all strings exactly if nothing but `%` follows the first unescaped `%`. */
  lemma ExactIffManyIsLast(wild: string)
    ensures (forall s: string :: Accepts(s, 0, wild, 0) <==> Like(s, Parse(wild))) <==> OnlyMany(Beyond(Parse(wild)))
  {
    var pattern := Parse(wild);
    assert wild[0..] == wild;
    if OnlyMany(Beyond(pattern)) {
      forall s: string ensures Accepts(s, 0, wild, 0) <==> Like(s, pattern) {
        assert s[0..] == s;
        if Accepts(s, 0, wild, 0) {
          ExactOnOnlyMany(s, pattern);
        } else if Like(s, pattern) {
          LikeIsAccepted(s, wild);
        }
      }
    } else {
      ParseIsParsed(wild);
      ShortestSeparates(pattern);
      assert Shortest(pattern)[0..] == Shortest(pattern);
      assert Accepts(Shortest(pattern), 0, wild, 0);
    }
  }

  // ---- what to cache ----

  datatype Field = Field(db: CStr, orgTable: CStr)

  datatype Pattern = Pattern(pattern: CStr, ttl: nat)

  datatype Condition = Condition(isSchemaPattern: bool, patterns: Option<seq<Pattern>>)

  function QualifiedName(field: Field): CStr {
    field.db + "." + field.orgTable
  }

  predicate Covers(pattern: Pattern, field: Field) {
    Accepts(QualifiedName(field), 0, pattern.pattern, 0)
  }

  predicate CoversSome(pattern: Pattern, fields: seq<Field>) {
    exists f :: 0 <= f < |fields| && Covers(pattern, fields[f])
  }

  predicate Decides(condition: Condition) {
    condition.isSchemaPattern && condition.patterns.Some? && condition.patterns.value != []
  }

  /** `p` is the first of the patterns that covers a column. */
  predicate FirstCover(patterns: seq<Pattern>, fields: seq<Field>, p: nat) {
    p < |patterns| && CoversSome(patterns[p], fields) && forall q :: 0 <= q < p ==> !CoversSome(patterns[q], fields)
  }

  /** What the patterns of the deciding condition say. */
  ghost predicate Verdict(patterns: seq<Pattern>, fields: seq<Field>, ttl0: nat, cache: bool, ttl: nat) {
    if cache then
      exists p: nat :: FirstCover(patterns, fields, p) && ttl == if patterns[p].ttl != 0 then patterns[p].ttl else ttl0
    else
      ttl == ttl0 && forall p :: 0 <= p < |patterns| ==> !CoversSome(patterns[p], fields)
  }

  /**
   * Only the first condition that has schema patterns counts: a result is cached if one of its patterns
   * covers one of the columns, for the time of the first such pattern, unless that is zero.
   */
  method ShouldCache(result: Option<seq<Field>>, conditions: seq<Condition>, ttl0: nat) returns (cache: bool, ttl: nat)
    ensures result.None? || (forall c :: 0 <= c < |conditions| ==> !Decides(conditions[c])) ==> cache && ttl == ttl0
    ensures forall c :: 0 <= c < |conditions| && Decides(conditions[c])
                        && (forall d :: 0 <= d < c ==> !Decides(conditions[d])) && result.Some?
                        ==> Verdict(conditions[c].patterns.value, result.value, ttl0, cache, ttl)
  {
    cache, ttl := true, ttl0;
    if result.None? {
      return;
    }
    var c := 0;
    while c < |conditions|
      invariant c <= |conditions| && cache && ttl == ttl0
      invariant forall d :: 0 <= d < c ==> !Decides(conditions[d])
    {
      var entry := conditions[c];
      if entry.isSchemaPattern && entry.patterns.Some? && |entry.patterns.value| > 0 {
        cache, ttl := SomePatternCovers(entry.patterns.value, result.value, ttl0);
        return;
      }
      c := c + 1;
    }
  }

  method SomePatternCovers(patterns: seq<Pattern>, fields: seq<Field>, ttl0: nat) returns (cache: bool, ttl: nat)
    ensures Verdict(patterns, fields, ttl0, cache, ttl)
  {
    cache, ttl := false, ttl0;
    var p := 0;
    while p < |patterns| && !cache
      invariant p <= |patterns|
      invariant !cache ==> ttl == ttl0 && forall q :: 0 <= q < p ==> !CoversSome(patterns[q], fields)
      invariant cache ==> Verdict(patterns, fields, ttl0, cache, ttl)
    {
      var i := 0;
      while i < |fields| && !cache
        invariant i <= |fields|
        invariant !cache ==> ttl == ttl0 && forall f :: 0 <= f < i ==> !Covers(patterns[p], fields[f])
        invariant cache ==> Verdict(patterns, fields, ttl0, cache, ttl)
        decreases |fields| - i, !cache
      {
        var matches := MatchWild(Some(QualifiedName(fields[i])), Some(patterns[p].pattern));
        if matches {
          if patterns[p].ttl != 0 {
            ttl := patterns[p].ttl;
          }
          cache := true;
          assert Covers(patterns[p], fields[i]);
          assert FirstCover(patterns, fields, p);
          break;
        }
        i := i + 1;
      }
      p := p + 1;
    }
  }
}
