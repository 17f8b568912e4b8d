/** Hints as an application writes them: what is between the comment signs, down to the digits. */
module HintValues {
  import opened Wrappers
  import opened Text
  import opened Lexer
  import opened HashKey
  import opened QueryPolicy

  // ---- atoi ----

  predicate AllBlank(s: string) {
    forall i :: 0 <= i < |s| ==> IsBlank(s[i])
  }

  predicate EndsNumber(rest: string) {
    rest == "" || !IsDigit(rest[0])
  }

  lemma UnsignedIs(s: string, number: string, value: int)
    requires SkipBlanks(s) == number && number != "" && IsDigit(number[0])
    requires DecimalValue(number[..Run(IsDigit, number)]) == value
    ensures UnsignedAtoi(s) == Clamp(value) % 0x1_0000_0000
  {
  }

  lemma SignedIs(s: string, t: string, number: string, value: int)
    requires SkipBlanks(s) == t && t != "" && (t[0] == '-' || t[0] == '+') && t[1..] == number
    requires DecimalValue(number[..Run(IsDigit, number)]) == value
    ensures UnsignedAtoi(s) == Clamp(if t[0] == '-' then -value else value) % 0x1_0000_0000
  {
  }

  lemma NumberIs(n: nat, rest: string)
    requires EndsNumber(rest)
    ensures
      var number := Digits(n) + rest;
      IsDigit(number[0]) && DecimalValue(number[..Run(IsDigit, number)]) == n
  {
    ValueOfDigits(n);
    RunIs(IsDigit, Digits(n) + rest, |Digits(n)|);
    assert (Digits(n) + rest)[..|Digits(n)|] == Digits(n);
  }

  /** A number as a 64-bit long, cut down to 32 bits. */
  function Cut(n: int): nat {
    if n < -0x8000_0000_0000_0000 then 0
    else if n >= 0x8000_0000_0000_0000 then 0xFFFF_FFFF
    else n % 0x1_0000_0000
  }

  lemma ClampedIsCut(n: int)
    ensures Clamp(n) % 0x1_0000_0000 == Cut(n)
  {
  }

  lemma SignInFront(sign: string, number: string)
    requires sign == "+" || sign == "-"
    ensures (sign + number)[0] == sign[0] && (sign + number)[1..] == number
  {
  }

  /** Blanks, a sign, and digits are read as the number they stand for, whatever comes behind. */
  lemma AtoiReadsNumber(blanks: string, sign: string, n: nat, rest: string)
    requires AllBlank(blanks) && (sign == "" || sign == "+" || sign == "-") && EndsNumber(rest)
    ensures UnsignedAtoi(blanks + (sign + (Digits(n) + rest))) == Cut(if sign == "-" then 0 - n else n)
  {
    NumberIs(n, rest);
    var number := Digits(n) + rest;
    ReadsNumber(blanks, sign, number, n);
  }

  lemma ReadsNumber(blanks: string, sign: string, number: string, n: int)
    requires AllBlank(blanks) && (sign == "" || sign == "+" || sign == "-")
    requires number != "" && IsDigit(number[0]) && DecimalValue(number[..Run(IsDigit, number)]) == n
    ensures UnsignedAtoi(blanks + (sign + number)) == Cut(if sign == "-" then 0 - n else n)
  {
    var t := sign + number;
    if sign == "" {
      assert t == number;
      SkipPrefix(blanks, t);
      UnsignedIs(blanks + t, number, n);
    } else {
      SignInFront(sign, number);
      SkipPrefix(blanks, t);
      SignedIs(blanks + t, t, number, n);
    }
    ClampedIsCut(n);
    ClampedIsCut(0 - n);
  }

  // ---- a query with all three kinds of hint ----

  ghost predicate IsBody(body: string) {
    WellFormed(Block("", body))
  }

  lemma SpelledIsBody(text: string, name: string, value: string)
    requires SameIgnoringCase(text, name) && name != "" && IsBody(name)
    requires forall i :: 0 <= i < |value| ==> value[i] != '*' && value[i] != '/'
    ensures IsBody(text + value) && Has(text + value, name) && (text + value)[|name|..] == value
  {
    var body := text + value;
    forall i | 0 <= i < |text| ensures body[i] != '*' && body[i] != '/' {
      assert Lower(text[i]) == Lower(name[i]);
    }
    assert Lower(text[0]) == Lower(name[0]);
    assert body[..|name|] == text;
  }

  lemma OnIsApplied(on: string)
    requires Has(on, ENABLE_SWITCH)
    ensures Apply(false, Policy(false, 0, None), on) == Policy(true, 0, None)
  {
    SwitchesExclude(on);
  }

  lemma TtlIsApplied(body: string, digits: string, ttl: nat)
    requires Has(body, ENABLE_SWITCH_TTL) && body[|ENABLE_SWITCH_TTL|..] == digits && UnsignedAtoi(digits) == ttl
    ensures Apply(false, Policy(true, 0, None), body) == Policy(true, ttl, None)
  {
    SwitchesExclude(body);
  }

  lemma SidIsApplied(body: string, ttl: nat)
    requires Has(body, SERVER_ID_SWITCH)
    ensures Apply(false, Policy(true, ttl, None), body) == Policy(true, ttl, Some(body[|SERVER_ID_SWITCH|..]))
  {
    SwitchesExclude(body);
  }

  function Commented(body: string, rest: string): string {
    "/*" + (body + "*/" + rest)
  }

  lemma OneComment(keywords: Keywords, policy: Policy, body: string, rest: string)
    requires Named(keywords) && IsBody(body)
    ensures
      PolicyFrom(keywords, false, policy, Commented(body, rest)) ==
      PolicyFrom(keywords, false, Apply(false, policy, body), rest)
  {
    var hints := [Block("", body)];
    assert hints[1..] == [] && Bodies(hints) == [body] && [body][1..] == [];
    assert WriteAll(hints, rest) == "" + Commented(body, rest) == Commented(body, rest);
    HintsAreFolded(keywords, false, policy, hints, rest);
  }

  lemma NextComment(keywords: Keywords, p: Policy, body: string, p': Policy, rest: string, result: Policy)
    requires Named(keywords) && IsBody(body) && Apply(false, p, body) == p'
    requires PolicyFrom(keywords, false, p', rest) == result
    ensures PolicyFrom(keywords, false, p, Commented(body, rest)) == result
  {
    OneComment(keywords, p, body, rest);
  }

  lemma SelectAtEnd(keywords: Keywords, p: Policy, query: string)
    requires Named(keywords) && GetToken(keywords, query).token.code == Select
    ensures PolicyFrom(keywords, false, p, query) == p
  {
  }

  lemma BareParts(digits: string, none: string)
    requires none == ""
    ensures none + (none + (digits + none)) == digits
  {
  }

  lemma AtoiOfParts(s: string, none: string, n: nat)
    requires none == "" && s == none + (none + (Digits(n) + none))
    ensures UnsignedAtoi(s) == Cut(n)
  {
    AtoiReadsNumber(none, none, n, none);
  }

  lemma AtoiOfDigits(digits: string, n: nat, none: string)
    requires digits == Digits(n) && n < 0x1_0000_0000 && none == ""
    ensures UnsignedAtoi(digits) == n
  {
    BareParts(digits, none);
    AtoiOfParts(digits, none, n);
  }

  lemma DigitsArePlain(digits: string, n: nat)
    requires digits == Digits(n)
    ensures forall i :: 0 <= i < |digits| ==> digits[i] != '*' && digits[i] != '/'
  {
    forall i | 0 <= i < |digits| ensures digits[i] != '*' && digits[i] != '/' {
      assert IsDigit(digits[i]);
    }
  }

  lemma TtlBody(ttl: string, digits: string, n: nat)
    requires SameIgnoringCase(ttl, ENABLE_SWITCH_TTL) && digits == Digits(n)
    ensures IsBody(ttl + digits)
    ensures Has(ttl + digits, ENABLE_SWITCH_TTL) && (ttl + digits)[|ENABLE_SWITCH_TTL|..] == digits
  {
    DigitsArePlain(digits, n);
    SpelledIsBody(ttl, ENABLE_SWITCH_TTL, digits);
  }

  /**
   * A SELECT behind qc=on, qc_ttl= and qc_sid=, in any mixture of cases, is to be cached for the number of
   * seconds in the second hint under the server id in the third.
   */
  lemma HintedSelect(keywords: Keywords, on: string, ttl: string, n: nat, sid: string, id: string, query: string)
    requires Named(keywords) && GetToken(keywords, query).token.code == Select
    requires SameIgnoringCase(on, "qc=on") && SameIgnoringCase(ttl, "qc_ttl=") && SameIgnoringCase(sid, "qc_sid=")
    requires n < 0x1_0000_0000 && forall i :: 0 <= i < |id| ==> id[i] != '*' && id[i] != '/'
    ensures
      PolicyOf(keywords, false, Commented(on, Commented(ttl + Digits(n), Commented(sid + id, query)))) ==
      Policy(true, n, Some(id))
  {
    var result := Policy(true, n, Some(id));
    var named := Commented(sid + id, query);
    var timed := Commented(ttl + Digits(n), named);
    SelectAtEnd(keywords, result, query);
    SpelledIsBody(sid, SERVER_ID_SWITCH, id);
    SidIsApplied(sid + id, n);
    NextComment(keywords, Policy(true, n, None), sid + id, result, query, result);
    TtlBody(ttl, Digits(n), n);
    AtoiOfDigits(Digits(n), n, "");
    TtlIsApplied(ttl + Digits(n), Digits(n), n);
    NextComment(keywords, Policy(true, 0, None), ttl + Digits(n), Policy(true, n, None), named, result);
    HintedOn(on);
    NextComment(keywords, Policy(false, 0, None), on, Policy(true, 0, None), timed, result);
    FromTheStart(keywords, Commented(on, timed), result);
  }

  lemma HintedOn(on: string)
    requires SameIgnoringCase(on, ENABLE_SWITCH)
    ensures IsBody(on) && Apply(false, Policy(false, 0, None), on) == Policy(true, 0, None)
  {
    SpelledIsBody(on, ENABLE_SWITCH, "");
    assert on + "" == on;
    OnIsApplied(on);
  }

  lemma FromTheStart(keywords: Keywords, query: string, result: Policy)
    requires Named(keywords) && PolicyFrom(keywords, false, Policy(false, 0, None), query) == result
    ensures PolicyOf(keywords, false, query) == result
  {
  }
}
