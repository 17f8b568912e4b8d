/**
 * The cache key of a query (mysqlnd_qc_handler_default_get_hash_key): which queries, sent over
 * which connections, share an entry.
 */
module HashKey {
  import opened Wrappers
  import opened Text
  import opened Strip

  /** What the key takes from a connection; NULL host and user give no key, a NULL database is "". */
  datatype Context = Context(host: Option<string>, port: int, charset: int, user: Option<string>, db: Option<string>)

  predicate NotNul(c: char) {
    c != '\0'
  }

  /** The string as printf's %s sees it. */
  function CString(s: string): string {
    s[..Run(NotNul, s)]
  }

  // ---- %d ----

  function Digits(n: nat): (s: string)
    ensures |s| > 0 && forall i :: 0 <= i < |s| ==> IsDigit(s[i])
  {
    (if n < 10 then "" else Digits(n / 10)) + [('0' as int + n % 10) as char]
  }

  function Printed(n: int): string {
    if n < 0 then "-" + Digits(-n) else Digits(n)
  }

  lemma {:induction false} ValueOfDigits(n: nat)
    ensures DecimalValue(Digits(n)) == n
  {
    var s := Digits(n);
    if n >= 10 {
      ValueOfDigits(n / 10);
      assert s[..|s| - 1] == Digits(n / 10);
    } else {
      assert s[..|s| - 1] == "";
    }
  }

  lemma PrintedParts(n: int)
    ensures Printed(n)[0] == '-' <==> n < 0
    ensures Digits(if n < 0 then -n else n) == if n < 0 then Printed(n)[1..] else Printed(n)
  {
  }

  lemma PrintedIsInjective(m: int, n: int)
    requires Printed(m) == Printed(n)
    ensures m == n
  {
    PrintedParts(m);
    PrintedParts(n);
    SameDigits(if m < 0 then -m else m, if n < 0 then -n else n);
  }

  lemma SameDigits(m: nat, n: nat)
    requires Digits(m) == Digits(n)
    ensures m == n
  {
    ValueOfDigits(m);
    ValueOfDigits(n);
  }

  // ---- the key ----

  /** The text a query goes into the key with; an empty query is not stripped. */
  function KeyText(query: string): string {
    CString(if query == "" then query else StripQuery(query))
  }

  function Line(field: string, rest: string): string {
    field + ("\n" + rest)
  }

  function ContextKey(host: string, port: int, charset: int, user: string, db: string, text: string): string {
    Line(host, Line(Printed(port), Line(Printed(charset), Line(user, db + ("|" + text)))))
  }

  function GetHashKey(context: Context, serverId: Option<string>, query: string): Option<string> {
    match serverId
    case Some(id) => Some(CString(id) + ("|" + KeyText(query)))
    case None =>
      if context.host.None? || context.user.None? then None
      else
        Some(ContextKey(CString(context.host.value), context.port, context.charset, CString(context.user.value),
                        DatabaseOf(context), KeyText(query)))
  }

  function DatabaseOf(context: Context): string {
    if context.db.Some? then CString(context.db.value) else ""
  }

  /** The stripped text is computed by the loop of the stripper. */
  method HashKeyOf(context: Context, serverId: Option<string>, query: string) returns (key: Option<string>)
    ensures key == GetHashKey(context, serverId, query)
  {
    var stripped := StripCommentsAndFixWhitespace(query);
    var text := CString(if stripped.Some? then stripped.value else query);
    if serverId.Some? {
      key := Some(CString(serverId.value) + ("|" + text));
    } else if context.host.None? || context.user.None? {
      key := None;
    } else {
      key := Some(ContextKey(CString(context.host.value), context.port, context.charset, CString(context.user.value),
                             DatabaseOf(context), text));
    }
  }

  // ---- reading a key back ----

  predicate Free(c: char, s: string) {
    forall i :: 0 <= i < |s| ==> s[i] != c
  }

  /** The first separator ends the field. */
  lemma SplitAt(c: char, a: string, x: string, b: string, y: string)
    requires Free(c, a) && Free(c, b) && a + ([c] + x) == b + ([c] + y)
    ensures a == b && x == y
  {
    var s := a + ([c] + x);
    RunIs(d => d != c, s, |a|);
    RunIs(d => d != c, s, |b|);
    assert s[..|a|] == a && s[..|b|] == b;
    assert s[|a| + 1..] == x && s[|b| + 1..] == y;
  }

  lemma SplitLine(a: string, x: string, b: string, y: string)
    requires Free('\n', a) && Free('\n', b) && Line(a, x) == Line(b, y)
    ensures a == b && x == y
  {
    SplitAt('\n', a, x, b, y);
  }

  lemma PrintedIsOneLine(n: int)
    ensures Free('\n', Printed(n))
  {
  }

  /** Host and user on one line. */
  predicate OneLine(context: Context) {
    && context.host.Some? && Free('\n', CString(context.host.value))
    && context.user.Some? && Free('\n', CString(context.user.value))
  }

  /** And no bar in the database name. */
  predicate Separable(context: Context) {
    OneLine(context) && Free('|', DatabaseOf(context))
  }

  /** The fields a key is made of. */
  predicate SameContext(a: Context, b: Context)
    requires a.host.Some? && a.user.Some? && b.host.Some? && b.user.Some?
  {
    && CString(a.host.value) == CString(b.host.value) && a.port == b.port && a.charset == b.charset
    && CString(a.user.value) == CString(b.user.value) && DatabaseOf(a) == DatabaseOf(b)
  }

  /** Two queries share a key exactly if they come from the same context and have the same stripped text. */
  lemma KeysSeparateContexts(a: Context, query: string, b: Context, query': string)
    requires Separable(a) && Separable(b)
    ensures GetHashKey(a, None, query) == GetHashKey(b, None, query') <==>
            SameContext(a, b) && KeyText(query) == KeyText(query')
  {
    if GetHashKey(a, None, query) == GetHashKey(b, None, query') {
      FieldsOfKey(CString(a.host.value), a.port, a.charset, CString(a.user.value), DatabaseOf(a), KeyText(query),
                  CString(b.host.value), b.port, b.charset, CString(b.user.value), DatabaseOf(b), KeyText(query'));
    }
  }

  lemma FieldsOfKey(host: string, port: int, charset: int, user: string, db: string, text: string,
                    host': string, port': int, charset': int, user': string, db': string, text': string)
    requires Free('\n', host) && Free('\n', user) && Free('|', db)
    requires Free('\n', host') && Free('\n', user') && Free('|', db')
    requires ContextKey(host, port, charset, user, db, text) == ContextKey(host', port', charset', user', db', text')
    ensures host == host' && port == port' && charset == charset' && user == user' && db == db' && text == text'
  {
    LinesOfKey(host, port, charset, user, db + ("|" + text), host', port', charset', user', db' + ("|" + text'));
    SplitAt('|', db, text, db', text');
  }

  lemma LinesOfKey(host: string, port: int, charset: int, user: string, last: string,
                   host': string, port': int, charset': int, user': string, last': string)
    requires Free('\n', host) && Free('\n', user) && Free('\n', host') && Free('\n', user')
    requires Line(host, Line(Printed(port), Line(Printed(charset), Line(user, last)))) ==
             Line(host', Line(Printed(port'), Line(Printed(charset'), Line(user', last'))))
    ensures host == host' && port == port' && charset == charset' && user == user' && last == last'
  {
    var users, users' := Line(user, last), Line(user', last');
    var charsets, charsets' := Line(Printed(charset), users), Line(Printed(charset'), users');
    SplitLine(host, Line(Printed(port), charsets), host', Line(Printed(port'), charsets'));
    PrintedIsOneLine(port);
    PrintedIsOneLine(port');
    SplitLine(Printed(port), charsets, Printed(port'), charsets');
    PrintedIsInjective(port, port');
    PrintedIsOneLine(charset);
    PrintedIsOneLine(charset');
    SplitLine(Printed(charset), users, Printed(charset'), users');
    PrintedIsInjective(charset, charset');
    SplitLine(user, last, user', last');
  }

  /** No database is the empty database. */
  lemma NoDatabaseIsEmpty(context: Context, serverId: Option<string>, query: string)
    ensures GetHashKey(context.(db := None), serverId, query) == GetHashKey(context.(db := Some("")), serverId, query)
  {
    RunIs(NotNul, "", 0);
  }

  lemma CutAtNul(s: string, text: string)
    requires Free('\0', text) && |text| < |s| && s[..|text|] == text && s[|text|] == '\0'
    ensures CString(s) == text
  {
    RunIs(NotNul, s, |text|);
  }

  lemma SameTextSameKey(context: Context, serverId: Option<string>, query: string, query': string, text: string)
    requires KeyText(query) == text && KeyText(query') == text
    ensures GetHashKey(context, serverId, query) == GetHashKey(context, serverId, query')
  {
  }

  lemma KeyTextIs(query: string, stripped: string)
    requires query != "" && StripQuery(query) == stripped
    ensures KeyText(query) == CString(stripped)
  {
  }

  /** What follows a NUL does not reach the key; without one, all of the stripped text does. */
  lemma NulEndsKey(context: Context, serverId: Option<string>, query: string, query': string, tail: string)
    requires query != "" && query' != "" && Free('\0', StripQuery(query))
    requires StripQuery(query') == StripQuery(query) + ("\0" + tail)
    ensures KeyText(query) == StripQuery(query)
    ensures GetHashKey(context, serverId, query) == GetHashKey(context, serverId, query')
  {
    var text := StripQuery(query);
    PlainCString(text);
    KeyTextIs(query, text);
    CutAtNul(text + ("\0" + tail), text);
    KeyTextIs(query', text + ("\0" + tail));
    SameTextSameKey(context, serverId, query, query', text);
  }

  /** A server id on one line never gives the key of a connection whose host has no bar. */
  lemma ServerIdKeysStayApart(id: string, query: string, context: Context, query': string)
    requires Free('\n', CString(id))
    requires context.host.Some? && context.user.Some? && Free('|', CString(context.host.value))
    ensures GetHashKey(context, Some(id), query) != GetHashKey(context, None, query')
  {
    var host := CString(context.host.value);
    var key := GetHashKey(context, Some(id), query).value;
    var key' := GetHashKey(context, None, query').value;
    var n := |CString(id)|;
    assert key[n] == '|' && key[..n] == CString(id);
    assert key'[|host|] == '\n' && key'[..|host|] == host;
    if |host| < n {
      assert key[|host|] == CString(id)[|host|];
    } else if n < |host| {
      assert key'[n] == host[n];
    }
  }

  /** Keys of server ids without a bar tell the ids and the texts apart. */
  lemma ServerIdsSeparate(context: Context, id: string, query: string, id': string, query': string)
    requires Free('|', CString(id)) && Free('|', CString(id'))
    ensures GetHashKey(context, Some(id), query) == GetHashKey(context, Some(id'), query') <==>
            CString(id) == CString(id') && KeyText(query) == KeyText(query')
  {
    if GetHashKey(context, Some(id), query) == GetHashKey(context, Some(id'), query') {
      SplitAt('|', CString(id), KeyText(query), CString(id'), KeyText(query'));
    }
  }

  // ---- databases with a bar ----

  /** The two fields around the last separator: the same, or one database is the other with a tail after a bar. */
  predicate SameEnd(db: string, text: string, db': string, text': string) {
    || (db == db' && text == text')
    || (|db'| < |db| && db == db' + ("|" + db[|db'| + 1..]) && text' == db[|db'| + 1..] + ("|" + text))
    || (|db| < |db'| && db' == db + ("|" + db'[|db| + 1..]) && text == db'[|db| + 1..] + ("|" + text'))
  }

  lemma EndsMeet(db: string, text: string, db': string, text': string)
    ensures db + ("|" + text) == db' + ("|" + text') <==> SameEnd(db, text, db', text')
  {
    if db + ("|" + text) == db' + ("|" + text') {
      if |db| < |db'| {
        LongerEnd(db, text, db', text');
      } else if |db'| < |db| {
        LongerEnd(db', text', db, text);
      } else {
        SplitSame(db, text, db', text');
      }
    } else if |db| < |db'| && SameEnd(db, text, db', text') {
      Reassociate(db, db'[|db| + 1..], text');
    } else if |db'| < |db| && SameEnd(db, text, db', text') {
      Reassociate(db', db[|db'| + 1..], text);
    }
  }

  lemma Reassociate(db: string, tail: string, text: string)
    ensures (db + ("|" + tail)) + ("|" + text) == db + ("|" + (tail + ("|" + text)))
  {
  }

  lemma SplitSame(db: string, text: string, db': string, text': string)
    requires |db| == |db'| && db + ("|" + text) == db' + ("|" + text')
    ensures db == db' && text == text'
  {
    var s := db + ("|" + text);
    assert s[..|db|] == db && s[..|db|] == db';
    assert s[|db| + 1..] == text && s[|db| + 1..] == text';
  }

  lemma LongerEnd(db: string, text: string, db': string, text': string)
    requires |db| < |db'| && db + ("|" + text) == db' + ("|" + text')
    ensures db' == db + ("|" + db'[|db| + 1..]) && text == db'[|db| + 1..] + ("|" + text')
  {
    var s, n := db + ("|" + text), |db|;
    assert s[..n] == db && s[..n] == db'[..n] && s[n] == '|' && s[n] == db'[n];
    assert db' == db'[..n] + ([db'[n]] + db'[n + 1..]);
    assert s[n + 1..] == text && s[n + 1..] == db'[n + 1..] + ("|" + text');
  }

  /**
   * Whatever the databases: keys are equal exactly if the other fields are, and databases and stripped
   * texts are too or one database is the other with a bar and a tail, and the tail and a bar begin the
   * other query's stripped text.
   */
  lemma KeysCollideIff(a: Context, query: string, b: Context, query': string)
    requires OneLine(a) && OneLine(b)
    ensures GetHashKey(a, None, query) == GetHashKey(b, None, query') <==>
            && CString(a.host.value) == CString(b.host.value) && a.port == b.port && a.charset == b.charset
            && CString(a.user.value) == CString(b.user.value)
            && SameEnd(DatabaseOf(a), KeyText(query), DatabaseOf(b), KeyText(query'))
  {
    var end, end' := DatabaseOf(a) + ("|" + KeyText(query)), DatabaseOf(b) + ("|" + KeyText(query'));
    if GetHashKey(a, None, query) == GetHashKey(b, None, query') {
      LinesOfKey(CString(a.host.value), a.port, a.charset, CString(a.user.value), end,
                 CString(b.host.value), b.port, b.charset, CString(b.user.value), end');
    }
    EndsMeet(DatabaseOf(a), KeyText(query), DatabaseOf(b), KeyText(query'));
  }

  /** Text that the stripper copies, and that %s does not cut. */
  predicate Copied(s: string) {
    forall i :: 0 <= i < |s| ==> !IsBlank(s[i]) && s[i] != '/' && s[i] != '-' && s[i] != '\0'
  }

  /** A query that begins with neither a blank nor a comment. */
  predicate BeginsPlainly(query: string) {
    query == "" || (!IsBlank(query[0]) && !StartsBlockComment(query) && !StartsLineComment(query))
  }

  /**
   * So for every database whose name has a bar and a plain tail, every query on it that begins plainly
   * shares its key with a query on the database before the bar, which begins with the tail.
   */
  lemma BarInDatabaseCollides(context: Context, before: string, after: string, query: string)
    requires context.host.Some? && context.user.Some?
    requires Free('\0', before) && Copied(after) && BeginsPlainly(query)
    ensures
      var a, b := context.(db := Some(before + ("|" + after))), context.(db := Some(before));
      var query' := after + ("|" + query);
      && GetHashKey(a, None, query) == GetHashKey(b, None, query')
      && KeyText(query) != KeyText(query') && !SameContext(a, b)
  {
    PlainCString(before);
    PlainCString(before + ("|" + after));
    CopiedKeyText(after, query);
    Reassociate(before, after, KeyText(query));
    SameEndSameKey(CString(context.host.value), context.port, context.charset, CString(context.user.value),
                   before + ("|" + after), KeyText(query), before, after + ("|" + KeyText(query)));
  }

  lemma SameEndSameKey(host: string, port: int, charset: int, user: string,
                       db: string, text: string, db': string, text': string)
    requires db + ("|" + text) == db' + ("|" + text')
    ensures ContextKey(host, port, charset, user, db, text) == ContextKey(host, port, charset, user, db', text')
  {
  }

  lemma CopiedKeyText(after: string, query: string)
    requires Copied(after) && BeginsPlainly(query)
    ensures KeyText(after + ("|" + query)) == after + ("|" + KeyText(query))
  {
    var head := after + "|";
    assert head[|head| - 1] == '|';
    CopiedText(None, head, query);
    SameTextAfterBar(query);
    CutLater(head, StripQuery(query));
    Regrouped(after, query);
    Regrouped(after, KeyText(query));
  }

  lemma Regrouped(after: string, s: string)
    ensures after + ("|" + s) == (after + "|") + s
  {
  }

  lemma CutLater(head: string, s: string)
    requires Free('\0', head)
    ensures CString(head + s) == head + CString(s)
  {
    RunSplit(NotNul, head, s);
  }

  lemma SameTextAfterBar(query: string)
    requires BeginsPlainly(query)
    ensures StripFrom(Some('|'), query) == StripQuery(query)
  {
  }

  lemma Prepend(c: char, tail: string, s: string)
    ensures [c] + (tail + s) == ([c] + tail) + s
  {
  }

  lemma CopiedStep(last: Option<char>, c: char, rest: string)
    requires !IsBlank(c) && c != '/' && c != '-'
    ensures StripFrom(last, [c] + rest) == [c] + StripFrom(Some(c), rest)
  {
    var s := [c] + rest;
    assert s[0] == c && s[1..] == rest;
    CopiedTurn(last, s);
  }

  lemma CopiedTurn(last: Option<char>, s: string)
    requires s != "" && !IsBlank(s[0]) && s[0] != '/' && s[0] != '-'
    ensures Turn(last, s) == ([s[0]], s[1..])
  {
    assert SkipBlanks(s) == s && Gap(last, s) == "";
    assert "" + [s[0]] == [s[0]];
  }

  lemma {:induction false} CopiedText(last: Option<char>, head: string, s: string)
    requires Copied(head)
    ensures StripFrom(last, head + s) == head + StripFrom(if head == "" then last else Some(head[|head| - 1]), s)
    decreases |head|
  {
    if head == "" {
      assert head + s == s;
    } else {
      var c, tail := head[0], head[1..];
      assert head == [c] + tail && head + s == [c] + (tail + s);
      CopiedStep(last, c, tail + s);
      CopiedText(Some(c), tail, s);
      Prepend(c, tail, StripFrom(if tail == "" then Some(c) else Some(tail[|tail| - 1]), s));
    }
  }

  lemma PlainCString(s: string)
    requires Free('\0', s)
    ensures CString(s) == s
  {
    RunIs(NotNul, s, |s|);
  }
}
