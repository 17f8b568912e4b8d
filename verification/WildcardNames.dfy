/** Patterns written for one table or one database: which columns they cover. */
module WildcardNames {
  import opened HashKey
  import opened Wildcard

  predicate IsSpecial(c: char) {
    c == '%' || c == '_' || c == '\\'
  }

  /** The name with a backslash in front of each special character. */
  function Escape(name: string): string {
    if name == "" then ""
    else (if IsSpecial(name[0]) then ['\\', name[0]] else [name[0]]) + Escape(name[1..])
  }

  function Literals(name: string): seq<Element> {
    if name == "" then [] else [Literal(name[0])] + Literals(name[1..])
  }

  lemma ParseOne(c: char, rest: string)
    ensures Parse((if IsSpecial(c) then ['\\', c] else [c]) + rest) == [Literal(c)] + Parse(rest)
  {
    var wild := (if IsSpecial(c) then ['\\', c] else [c]) + rest;
    if IsSpecial(c) {
      assert wild[0] == '\\' && wild[1] == c && wild[2..] == rest;
    } else {
      assert wild[0] == c && wild[1..] == rest;
    }
  }

  lemma {:induction false} EscapeIsLiteral(name: string, tail: string)
    ensures Parse(Escape(name) + tail) == Literals(name) + Parse(tail)
    decreases |name|
  {
    if name == "" {
      assert Escape(name) + tail == tail;
    } else {
      var first := if IsSpecial(name[0]) then ['\\', name[0]] else [name[0]];
      EscapeIsLiteral(name[1..], tail);
      ParseOne(name[0], Escape(name[1..]) + tail);
      assert Escape(name) + tail == first + (Escape(name[1..]) + tail);
    }
  }

  predicate Begins(s: string, name: string) {
    |name| <= |s| && s[..|name|] == name
  }

  lemma BeginsStep(s: string, name: string)
    requires name != "" && s != "" && s[0] == name[0]
    ensures Begins(s, name) <==> Begins(s[1..], name[1..])
    ensures Begins(s, name) ==> s[|name|..] == s[1..][|name| - 1..]
  {
    if Begins(s[1..], name[1..]) {
      assert s[..|name|] == [s[0]] + s[1..][..|name| - 1];
      assert name == [name[0]] + name[1..];
    }
    if Begins(s, name) {
      assert s[1..][..|name| - 1] == s[..|name|][1..];
    }
  }

  lemma {:induction false} LikeLiterals(s: string, name: string, rest: seq<Element>)
    ensures Like(s, Cut(Literals(name) + rest)) <==> Begins(s, name) && Like(s[|name|..], Cut(rest))
    decreases |name|
  {
    if name == "" {
      assert Literals(name) + rest == rest && s[0..] == s;
    } else {
      var pattern := Literals(name) + rest;
      assert pattern[0] == Literal(name[0]) && pattern[1..] == Literals(name[1..]) + rest;
      assert Cut(pattern) == [Literal(name[0])] + Cut(pattern[1..]);
      if s != "" && s[0] == name[0] {
        LikeLiterals(s[1..], name[1..], rest);
        BeginsStep(s, name);
      }
    }
  }

  /** An escaped name is matched by itself alone. */
  lemma NameIsMatched(s: string, name: string)
    ensures Accepts(s, 0, Escape(name), 0) <==> s == name
  {
    EscapeIsLiteral(name, "");
    LikeLiterals(s, name, []);
    assert Escape(name) + "" == Escape(name) && Escape(name)[0..] == Escape(name) && s[0..] == s;
    assert Parse("") == [] && Literals(name) + [] == Literals(name);
    assert Begins(s, name) && s[|name|..] == "" <==> s == name;
  }

  /** With a `%` behind it, it is matched by what begins with it. */
  lemma PrefixIsMatched(s: string, name: string)
    ensures Accepts(s, 0, Escape(name) + "%", 0) <==> Begins(s, name)
  {
    EscapeIsLiteral(name, "%");
    LikeLiterals(s, name, [AnyMany]);
    assert (Escape(name) + "%")[0..] == Escape(name) + "%" && s[0..] == s;
    assert Parse("%") == [AnyMany] + Parse("%"[1..]) == [AnyMany];
    if Begins(s, name) {
      assert Like(s[|name|..][|s| - |name|..], []);
    }
  }

  // ---- the columns covered ----

  /** The first dot of a string is in one place. */
  lemma OneFirstDot(s: string, m: nat, n: nat)
    requires m < |s| && n < |s| && s[m] == '.' && s[n] == '.' && Free('.', s[..m]) && Free('.', s[..n])
    ensures m == n
  {
  }

  lemma DotSplits(db: string, table: string, db': string, table': string)
    requires Free('.', db) && Free('.', db')
    ensures db + "." + table == db' + "." + table' <==> db == db' && table == table'
    ensures Begins(db + "." + table, db' + ".") <==> db == db'
  {
    var s, s' := db + "." + table, db' + "." + table';
    assert s[|db|] == '.' && s[..|db|] == db && s[|db| + 1..] == table;
    assert s'[|db'|] == '.' && s'[..|db'|] == db' && s'[|db'| + 1..] == table';
    if Begins(s, db' + ".") {
      assert (db' + ".")[|db'|] == '.' && (db' + ".")[..|db'|] == db';
      assert s[|db'|] == '.' && s[..|db'|] == db';
      OneFirstDot(s, |db|, |db'|);
    }
    if s == s' {
      OneFirstDot(s, |db|, |db'|);
    }
    if db == db' {
      assert s[..|db'| + 1] == db' + ".";
    }
  }

  /** The pattern of one table covers just the columns of that table. */
  lemma TablePattern(pattern: Pattern, db: string, table: string, field: Field)
    requires Free('.', db) && Free('.', field.db) && pattern.pattern == Escape(db + "." + table)
    ensures Covers(pattern, field) <==> field.db == db && field.orgTable == table
  {
    NameIsMatched(field.db + "." + field.orgTable, db + "." + table);
    DotSplits(field.db, field.orgTable, db, table);
  }

  /** The pattern of all tables of one database covers just the columns of these tables. */
  lemma DatabasePattern(pattern: Pattern, db: string, field: Field)
    requires Free('.', db) && Free('.', field.db) && pattern.pattern == Escape(db + ".") + "%"
    ensures Covers(pattern, field) <==> field.db == db
  {
    PrefixIsMatched(field.db + "." + field.orgTable, db + ".");
    DotSplits(field.db, field.orgTable, db, "");
  }
}
