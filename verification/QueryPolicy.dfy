/**
 * SQL hints: whether and how a query is to be cached, decided from its leading comments
 * (mysqlnd_qc_handler_default_query_is_select). The stripper drops the same comments, so a
 * hint changes the policy of a query but not its identity.
 */
module QueryPolicy {
  import opened Wrappers
  import opened Text
  import opened Lexer
  import opened Tokenizer
  import opened Strip

  const ENABLE_SWITCH := "qc=on"
  const DISABLE_SWITCH := "qc=off"
  const ENABLE_SWITCH_TTL := "qc_ttl="
  const SERVER_ID_SWITCH := "qc_sid="

  datatype Policy = Policy(cache: bool, ttl: nat, serverId: Option<string>)

  /** !strncasecmp(text, prefix, strlen(prefix)) */
  predicate Has(text: string, prefix: string) {
    |prefix| <= |text| && SameIgnoringCase(text[..|prefix|], prefix)
  }

  // ---- atoi, on a platform with 64-bit long ----

  function Clamp(n: int): int {
    if n < -0x8000_0000_0000_0000 then -0x8000_0000_0000_0000
    else if n > 0x7FFF_FFFF_FFFF_FFFF then 0x7FFF_FFFF_FFFF_FFFF
    else n
  }

  /** atoi, assigned to an unsigned int. */
  function UnsignedAtoi(s: string): nat {
    var t := SkipBlanks(s);
    var signed := t != "" && (t[0] == '-' || t[0] == '+');
    var digits := if signed then t[1..] else t;
    var n: int := DecimalValue(digits[..Run(IsDigit, digits)]);
    Clamp(if signed && t[0] == '-' then -n else n) % 0x1_0000_0000
  }

  // ---- the loop over the leading comments ----

  /** What one comment does to the policy. */
  function Apply(byDefault: bool, policy: Policy, body: string): Policy {
    var policy :=
      if byDefault then policy
      else if !policy.cache && Has(body, ENABLE_SWITCH) then policy.(cache := true)
      else if Has(body, ENABLE_SWITCH_TTL) then policy.(ttl := UnsignedAtoi(body[|ENABLE_SWITCH_TTL|..]))
      else if Has(body, SERVER_ID_SWITCH) then policy.(serverId := Some(body[|SERVER_ID_SWITCH|..]))
      else policy;
    if policy.cache && Has(body, DISABLE_SWITCH) then policy.(cache := false) else policy
  }

  function CommentText(token: Token): string {
    if token.value.Some? then token.value.value else ""
  }

  /** Only an empty identifier is read without progress, and it is no comment. */
  lemma CommentProgresses(keywords: Keywords, s: string)
    requires Named(keywords) && GetToken(keywords, s).token.code == Comment
    ensures |GetToken(keywords, s).rest| < |s|
  {
    if s != "" {
      GetTokenProgress(keywords, s);
      if !StartsToken(s[0]) {
        StuckReturnsEmptyIdent(keywords, s);
      }
    }
  }

  ghost function PolicyFrom(keywords: Keywords, byDefault: bool, policy: Policy, s: string): Policy
    requires Named(keywords)
    decreases |s|
  {
    var lexed := GetToken(keywords, s);
    if lexed.token.code == Comment then
      CommentProgresses(keywords, s);
      PolicyFrom(keywords, byDefault, Apply(byDefault, policy, CommentText(lexed.token)), lexed.rest)
    else
      policy.(cache := policy.cache && lexed.token.code == Select)
  }

  ghost function PolicyOf(keywords: Keywords, byDefault: bool, query: string): Policy
    requires Named(keywords)
  {
    PolicyFrom(keywords, byDefault, Policy(byDefault, 0, None), query)
  }

  /** Without a query there is nothing to cache; the other outputs are then left alone. */
  method QueryIsSelect(keywords: Keywords, byDefault: bool, query: Option<string>) returns (policy: Policy)
    requires Named(keywords)
    ensures policy == match query
                      case None => Policy(false, 0, None)
                      case Some(text) => PolicyOf(keywords, byDefault, text)
  {
    if query.None? {
      return Policy(false, 0, None);
    }
    policy := Policy(byDefault, 0, None);
    var text := query.value;
    var token, p := NextToken(keywords, text, 0);
    ghost var before := text;
    assert text[0..] == text;
    while token.code == Comment
      invariant p <= |text| && GetToken(keywords, before) == Lexed(token, text[p..])
      invariant PolicyFrom(keywords, byDefault, policy, before) == PolicyOf(keywords, byDefault, text)
      decreases |before|
    {
      CommentProgresses(keywords, before);
      before := text[p..];
      var body := CommentText(token);
      if !byDefault {
        if !policy.cache && Has(body, ENABLE_SWITCH) {
          policy := policy.(cache := true);
        } else if Has(body, ENABLE_SWITCH_TTL) {
          policy := policy.(ttl := UnsignedAtoi(body[|ENABLE_SWITCH_TTL|..]));
        } else if Has(body, SERVER_ID_SWITCH) {
          policy := policy.(serverId := Some(body[|SERVER_ID_SWITCH|..]));
        }
      }
      if policy.cache && Has(body, DISABLE_SWITCH) {
        policy := policy.(cache := false);
      }
      token, p := NextToken(keywords, text, p);
    }
    policy := policy.(cache := policy.cache && token.code == Select);
  }

  // ---- a query with hints in front ----

  /** A comment, with blanks before it. */
  datatype Hint = Block(blanks: string, body: string) | Line(blanks: string, body: string)

  ghost predicate WellFormed(hint: Hint) {
    && (forall i :: 0 <= i < |hint.blanks| ==> IsBlank(hint.blanks[i]))
    && match hint
       case Block(_, body) =>
         (forall i :: 0 <= i < |body| ==> body[i] != '*' && body[i] != '/') && (body != "" ==> body[0] != '!')
       case Line(_, body) => forall i :: 0 <= i < |body| ==> NotNewline(body[i])
  }

  /** The hint as written in front of the rest of the query. */
  function Write(hint: Hint, rest: string): string {
    hint.blanks +
    match hint
    case Block(_, body) => "/*" + (body + "*/" + rest)
    case Line(_, body) => "--" + (body + ("\n" + rest))
  }

  function WriteAll(hints: seq<Hint>, query: string): string {
    if hints == [] then query else Write(hints[0], WriteAll(hints[1..], query))
  }

  lemma BlockIsComment(body: string, rest: string)
    requires forall i :: 0 <= i < |body| ==> body[i] != '*' && body[i] != '/'
    requires body != "" ==> body[0] != '!'
    ensures
      var t := "/*" + (body + "*/" + rest);
      StartsBlockComment(t) && !StartsVersionComment(t) && BlockBody(t) == body && AfterBlock(t) == rest
  {
    var tail := body + "*/" + rest;
    var t := "/*" + tail;
    assert t[2..] == tail;
    CommentRunIsBody(body, rest);
    assert t[2] == tail[0] == (if body == "" then '*' else body[0]);
    assert BlockBody(t) == tail[..|body|] == body;
    assert t[|body| + 4..] == tail[|body| + 2..] == rest;
  }

  lemma LineIsComment(body: string, rest: string)
    requires forall i :: 0 <= i < |body| ==> NotNewline(body[i])
    ensures
      var t := "--" + (body + ("\n" + rest));
      !StartsBlockComment(t) && StartsLineComment(t) && LineBody(t) == body && AfterLine(t) == rest
  {
    var tail := body + ("\n" + rest);
    var t := "--" + tail;
    assert t[2..] == tail;
    RunIs(NotNewline, tail, |body|);
    assert LineBody(t) == tail[..|body|] == body;
    assert t[|body| + 3..] == tail[|body| + 1..] == rest;
  }

  /** The comment without its blanks, as both scanners see it. */
  lemma HintIsComment(hint: Hint, rest: string)
    requires WellFormed(hint)
    ensures
      var t := SkipBlanks(Write(hint, rest));
      if hint.Block?
      then StartsBlockComment(t) && !StartsVersionComment(t) && BlockBody(t) == hint.body && AfterBlock(t) == rest
      else !StartsBlockComment(t) && StartsLineComment(t) && LineBody(t) == hint.body && AfterLine(t) == rest
  {
    var t := match hint
             case Block(_, body) => "/*" + (body + "*/" + rest)
             case Line(_, body) => "--" + (body + ("\n" + rest));
    SkipPrefix(hint.blanks, t);
    if hint.Block? {
      BlockIsComment(hint.body, rest);
    } else {
      LineIsComment(hint.body, rest);
    }
  }

  lemma SkipPrefix(blanks: string, t: string)
    requires (forall i :: 0 <= i < |blanks| ==> IsBlank(blanks[i])) && t != "" && !IsBlank(t[0])
    ensures SkipBlanks(blanks + t) == t
  {
    RunIs(IsBlank, blanks + t, |blanks|);
  }

  lemma {:induction false} HintsLeaveNoTrace(hints: seq<Hint>, query: string)
    requires forall i :: 0 <= i < |hints| ==> WellFormed(hints[i])
    ensures StripQuery(WriteAll(hints, query)) == StripQuery(query)
    decreases |hints|
  {
    if hints != [] {
      var rest := WriteAll(hints[1..], query);
      HintIsComment(hints[0], rest);
      HintsLeaveNoTrace(hints[1..], query);
    }
  }

  function Bodies(hints: seq<Hint>): seq<string> {
    if hints == [] then [] else [hints[0].body] + Bodies(hints[1..])
  }

  /** The left fold of the bodies. */
  function Fold(byDefault: bool, policy: Policy, bodies: seq<string>): Policy
    decreases |bodies|
  {
    if bodies == [] then policy else Fold(byDefault, Apply(byDefault, policy, bodies[0]), bodies[1..])
  }

  lemma {:induction false} HintsAreFolded(
    keywords: Keywords, byDefault: bool, policy: Policy, hints: seq<Hint>, query: string)
    requires Named(keywords) && forall i :: 0 <= i < |hints| ==> WellFormed(hints[i])
    ensures PolicyFrom(keywords, byDefault, policy, WriteAll(hints, query)) ==
            PolicyFrom(keywords, byDefault, Fold(byDefault, policy, Bodies(hints)), query)
    decreases |hints|
  {
    if hints != [] {
      var hint, rest := hints[0], WriteAll(hints[1..], query);
      HintIsComment(hint, rest);
      assert GetToken(keywords, WriteAll(hints, query)) == Lexed(Token(Comment, Some(hint.body)), rest);
      assert Bodies(hints)[1..] == Bodies(hints[1..]);
      HintsAreFolded(keywords, byDefault, Apply(byDefault, policy, hint.body), hints[1..], query);
    }
  }

  // ---- what the fold amounts to ----

  predicate IsSwitch(body: string) {
    Has(body, ENABLE_SWITCH) || Has(body, DISABLE_SWITCH)
  }

  /** The last body with that prefix, or one of the two switches. */
  function LastSwitch(bodies: seq<string>): Option<string> {
    if bodies == [] then None
    else if IsSwitch(bodies[|bodies| - 1]) then Some(bodies[|bodies| - 1])
    else LastSwitch(bodies[..|bodies| - 1])
  }

  function LastWith(prefix: string, bodies: seq<string>): (last: Option<string>)
    ensures last.Some? ==> Has(last.value, prefix)
  {
    if bodies == [] then None
    else if Has(bodies[|bodies| - 1], prefix) then Some(bodies[|bodies| - 1])
    else LastWith(prefix, bodies[..|bodies| - 1])
  }

  lemma {:induction false} FoldLast(byDefault: bool, policy: Policy, bodies: seq<string>)
    requires bodies != []
    ensures Fold(byDefault, policy, bodies) ==
            Apply(byDefault, Fold(byDefault, policy, bodies[..|bodies| - 1]), bodies[|bodies| - 1])
    decreases |bodies|
  {
    if |bodies| > 1 {
      FoldLast(byDefault, Apply(byDefault, policy, bodies[0]), bodies[1..]);
      assert bodies[1..][..|bodies| - 2] == bodies[..|bodies| - 1][1..];
    } else {
      assert bodies[1..] == [];
    }
  }

  lemma SwitchesExclude(body: string)
    ensures !(Has(body, ENABLE_SWITCH) && Has(body, DISABLE_SWITCH))
    ensures Has(body, ENABLE_SWITCH_TTL) ==> !IsSwitch(body) && !Has(body, SERVER_ID_SWITCH)
    ensures Has(body, SERVER_ID_SWITCH) ==> !IsSwitch(body)
  {
    if |body| >= 5 {
      assert forall prefix :: Has(body, prefix) ==>
        forall i :: 0 <= i < |prefix| ==> Lower(body[..|prefix|][i]) == Lower(prefix[i]);
      assert Has(body, ENABLE_SWITCH) ==> Lower(body[4]) == 'n' && Lower(body[2]) == '=' by {
        assert ENABLE_SWITCH[4] == 'n' && ENABLE_SWITCH[2] == '=';
      }
      assert Has(body, DISABLE_SWITCH) ==> Lower(body[4]) == 'f' && Lower(body[2]) == '=' by {
        assert DISABLE_SWITCH[4] == 'f' && DISABLE_SWITCH[2] == '=';
      }
      assert Has(body, ENABLE_SWITCH_TTL) ==> Lower(body[3]) == 't' && Lower(body[2]) == '_' by {
        assert ENABLE_SWITCH_TTL[3] == 't' && ENABLE_SWITCH_TTL[2] == '_';
      }
      assert Has(body, SERVER_ID_SWITCH) ==> Lower(body[3]) == 's' && Lower(body[2]) == '_' by {
        assert SERVER_ID_SWITCH[3] == 's' && SERVER_ID_SWITCH[2] == '_';
      }
    }
  }

  /** Caching is off by default: the last qc=on or qc=off, the last qc_ttl= and the last qc_sid= win. */
  lemma {:induction false} LastHintWins(policy: Policy, bodies: seq<string>)
    ensures
      var result := Fold(false, policy, bodies);
      && result.cache == (match LastSwitch(bodies)
                          case None => policy.cache case Some(body) => Has(body, ENABLE_SWITCH))
      && result.ttl == (match LastWith(ENABLE_SWITCH_TTL, bodies)
                        case None => policy.ttl case Some(body) => UnsignedAtoi(body[|ENABLE_SWITCH_TTL|..]))
      && result.serverId == (match LastWith(SERVER_ID_SWITCH, bodies)
                             case None => policy.serverId case Some(body) => Some(body[|SERVER_ID_SWITCH|..]))
    decreases |bodies|
  {
    if bodies != [] {
      FoldLast(false, policy, bodies);
      LastHintWins(policy, bodies[..|bodies| - 1]);
      SwitchesExclude(bodies[|bodies| - 1]);
    }
  }

  /** Caching is on by default: a single qc=off switches it off for good, and nothing else is heeded. */
  lemma {:induction false} OffIsAbsorbing(policy: Policy, bodies: seq<string>)
    ensures Fold(true, policy, bodies) ==
            policy.(cache := policy.cache && forall i :: 0 <= i < |bodies| ==> !Has(bodies[i], DISABLE_SWITCH))
    decreases |bodies|
  {
    if bodies != [] {
      FoldLast(true, policy, bodies);
      OffIsAbsorbing(policy, bodies[..|bodies| - 1]);
    }
  }

  /**
   * Hints change policy but not identity: the text that goes into the cache key is that of the
   * bare query, and the policy is the fold of the hints, granted only to a SELECT.
   */
  lemma HintsChangePolicyNotIdentity(keywords: Keywords, byDefault: bool, hints: seq<Hint>, query: string)
    requires Named(keywords) && forall i :: 0 <= i < |hints| ==> WellFormed(hints[i])
    requires GetToken(keywords, query).token.code != Comment
    ensures StripQuery(WriteAll(hints, query)) == StripQuery(query)
    ensures
      var folded := Fold(byDefault, Policy(byDefault, 0, None), Bodies(hints));
      PolicyOf(keywords, byDefault, WriteAll(hints, query)) ==
      folded.(cache := folded.cache && GetToken(keywords, query).token.code == Select)
  {
    HintsLeaveNoTrace(hints, query);
    HintsAreFolded(keywords, byDefault, Policy(byDefault, 0, None), hints, query);
  }
}
