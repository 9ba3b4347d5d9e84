/** Reads a generated statement back. The reader knows the grammar of the four statements
    and the scanner's automaton, and nothing of how the text was built. */
module Parsing {
  import opened Options
  import opened SqlScan
  import opened Statements

  function Expect(s: string, word: string): Option<string> {
    if word <= s then Some(s[|word|..]) else None
  }

  /** The name up to the closing backtick, doubled backticks undone, and the text after it. */
  function Unquote(s: string): (r: Option<(string, string)>)
    ensures r.Some? ==> |r.value.1| < |s|
  {
    if s == "" then None
    else if s[0] != '`' then
      var (name, rest) :- Unquote(s[1..]);
      Some(([s[0]] + name, rest))
    else if |s| > 1 && s[1] == '`' then
      var (name, rest) :- Unquote(s[2..]);
      Some(("`" + name, rest))
    else Some(("", s[1..]))
  }

  function ReadIdent(s: string): (r: Option<(string, string)>)
    ensures r.Some? ==> |r.value.1| < |s|
  {
    var s :- Expect(s, "`");
    Unquote(s)
  }

  /** The text up to the first delimiter at code level. */
  function ReadLiteral(st: Lex, s: string): (r: (string, string))
    ensures r.0 + r.1 == s
    decreases s
  {
    if s == "" || (Delimiter(s[0]) && (st == Code || st == Dash || st == Slash)) then ("", s)
    else
      var (v, rest) := ReadLiteral(Step(st, s[0]), s[1..]);
      ([s[0]] + v, rest)
  }

  function ReadIdents(s: string): Option<(seq<string>, string)>
    decreases |s|
  {
    var (name, rest) :- ReadIdent(s);
    match Expect(rest, ", ")
    case None => Some(([name], rest))
    case Some(more) =>
      var (names, rest) :- ReadIdents(more);
      Some(([name] + names, rest))
  }

  function ReadLiterals(s: string): Option<(seq<string>, string)>
    decreases |s|
  {
    var (v, rest) := ReadLiteral(Code, s);
    match Expect(rest, ", ")
    case None => Some(([v], rest))
    case Some(more) =>
      var (values, rest) :- ReadLiterals(more);
      Some(([v] + values, rest))
  }

  function ReadAssigns(s: string): Option<(seq<(string, string)>, string)>
    decreases |s|
  {
    var (name, t) :- ReadIdent(s);
    var t :- Expect(t, " = ");
    var (v, rest) := ReadLiteral(Code, t);
    match Expect(rest, ", ")
    case None => Some(([(name, v)], rest))
    case Some(more) =>
      var (sets, rest) :- ReadAssigns(more);
      Some(([(name, v)] + sets, rest))
  }

  /** `WHERE <key> = <value>` and what follows it. */
  function ReadWhere(s: string): Option<(string, string, string)> {
    var s :- Expect(s, " WHERE ");
    var (key, s) :- ReadIdent(s);
    var s :- Expect(s, " = ");
    var (v, rest) := ReadLiteral(Code, s);
    Some((key, v, rest))
  }

  function ParseFind(s: string): Option<Statement> {
    var s :- Expect(s, "SELECT ");
    var (columns, s) :- ReadIdents(s);
    var s :- Expect(s, " FROM ");
    var (table, s) :- ReadIdent(s);
    var (key, v, s) :- ReadWhere(s);
    if s == " LIMIT 1" then Some(Find(table, columns, key, v)) else None
  }

  function ParseInsert(s: string): Option<Statement> {
    var s :- Expect(s, "INSERT INTO ");
    var (table, s) :- ReadIdent(s);
    var s :- Expect(s, " (");
    var (columns, s) :- ReadIdents(s);
    var s :- Expect(s, ") VALUES (");
    var (values, s) :- ReadLiterals(s);
    if s == ")" then Some(Insert(table, columns, values)) else None
  }

  function ParseUpdate(s: string): Option<Statement> {
    var s :- Expect(s, "UPDATE ");
    var (table, s) :- ReadIdent(s);
    var s :- Expect(s, " SET ");
    var (sets, s) :- ReadAssigns(s);
    var (key, v, s) :- ReadWhere(s);
    if s == "" then Some(Update(table, sets, key, v)) else None
  }

  function ParseDelete(s: string): Option<Statement> {
    var s :- Expect(s, "DELETE FROM ");
    var (table, s) :- ReadIdent(s);
    var (key, v, s) :- ReadWhere(s);
    if s == "" then Some(Delete(table, key, v)) else None
  }

  function Parse(s: string): Option<Statement> {
    if s == "" then None
    else if s[0] == 'S' then ParseFind(s)
    else if s[0] == 'I' then ParseInsert(s)
    else if s[0] == 'U' then ParseUpdate(s)
    else ParseDelete(s)
  }

  // --- Values ------------------------------------------------------------------------------

  /** Decimal digits behind those worth `acc`. */
  function ReadDigits(s: string, acc: nat): Option<nat>
    decreases s
  {
    if s == "" then Some(acc)
    else if '0' <= s[0] <= '9' then ReadDigits(s[1..], 10 * acc + (s[0] as int - 48))
    else None
  }

  function ReadInt(s: string): Option<int> {
    if s == "" || s == "-" then None
    else if s[0] == '-' then
      var n: int :- ReadDigits(s[1..], 0);
      Some(-n)
    else
      var n: int :- ReadDigits(s, 0);
      Some(n)
  }

  lemma {:induction false} ReadOneMore(s: string, c: char, acc: nat)
    requires '0' <= c <= '9' && ReadDigits(s, acc).Some?
    ensures ReadDigits(s + [c], acc) == Some(10 * ReadDigits(s, acc).value + (c as int - 48))
    decreases s
  {
    if s == "" {
      assert s + [c] == [c] && [c][1..] == "";
    } else {
      assert (s + [c])[1..] == s[1..] + [c];
      ReadOneMore(s[1..], c, 10 * acc + (s[0] as int - 48));
    }
  }

  lemma {:induction false} DigitsBack(n: nat)
    ensures ReadDigits(Digits(n), 0) == Some(n)
    decreases n
  {
    var last := '0' + (n % 10) as char;
    if n < 10 {
      assert Digits(n) == [last] && [last][1..] == "";
    } else {
      DigitsBack(n / 10);
      ReadOneMore(Digits(n / 10), last, 0);
    }
  }

  /** Every printed integer reads back as itself. */
  lemma IntBack(v: int)
    ensures ReadInt(IntText(v)) == Some(v)
  {
    if v < 0 {
      DigitsBack(-v);
      assert IntText(v)[1..] == Digits(-v);
    } else {
      DigitsBack(v);
      assert '0' <= IntText(v)[0] <= '9';
    }
  }

  // --- The pieces read back ------------------------------------------------------------

  lemma ExpectBack(word: string, rest: string)
    ensures Expect(word + rest, word) == Some(rest)
  {
    assert (word + rest)[..|word|] == word;
  }

  lemma UnquoteStep(c: char, t: string)
    ensures c != '`' && Unquote(t).Some? ==> Unquote([c] + t) == Some(([c] + Unquote(t).value.0, Unquote(t).value.1))
    ensures Unquote(t).Some? ==> Unquote("``" + t) == Some(("`" + Unquote(t).value.0, Unquote(t).value.1))
  {
    assert ([c] + t)[1..] == t && ("``" + t)[2..] == t;
  }

  lemma {:induction false} UnquoteBack(name: string, rest: string)
    requires rest == "" || rest[0] != '`'
    ensures Unquote(Doubled(name) + ("`" + rest)) == Some((name, rest))
    decreases name
  {
    if name == "" {
      assert "" + ("`" + rest) == "`" + rest;
      assert ("`" + rest)[1..] == rest;
    } else {
      UnquoteBack(name[1..], rest);
      var tail := Doubled(name[1..]) + ("`" + rest);
      UnquoteStep(name[0], tail);
      Reassociate(if name[0] == '`' then "``" else [name[0]], Doubled(name[1..]), "`" + rest);
      assert [name[0]] + name[1..] == name;
    }
  }

  lemma IdentGroups(quote: string, d: string, rest: string)
    ensures quote + d + quote + rest == quote + (d + (quote + rest))
  {
  }

  lemma IdentBack(name: string, rest: string)
    requires rest == "" || rest[0] != '`'
    ensures ReadIdent(Ident(name) + rest) == Some((name, rest))
  {
    UnquoteBack(name, rest);
    IdentGroups("`", Doubled(name), rest);
    ExpectBack("`", Doubled(name) + ("`" + rest));
  }

  lemma {:induction false} LiteralBackFrom(st: Lex, v: string, rest: string)
    requires Run(st, v) == Code && forall c :: c in Out(st, v) ==> !Delimiter(c)
    requires rest == "" || Delimiter(rest[0])
    ensures ReadLiteral(st, v + rest) == (v, rest)
    decreases v
  {
    if v == "" {
      assert v + rest == rest;
    } else {
      var s := v + rest;
      assert s[0] == v[0] && s[1..] == v[1..] + rest;
      EmittedShows(st, v);
      LiteralBackFrom(Step(st, v[0]), v[1..], rest);
      assert [v[0]] + v[1..] == v;
    }
  }

  lemma EmittedShows(st: Lex, v: string)
    requires v != ""
    ensures forall c :: c in Out(Step(st, v[0]), v[1..]) ==> c in Out(st, v)
    ensures (st == Code || st == Dash || st == Slash) && Delimiter(v[0]) ==> v[0] in Out(st, v)
  {
    DelimiterShows(st, v[0]);
  }

  lemma DelimiterShows(st: Lex, c: char)
    ensures (st == Code || st == Dash || st == Slash) && Delimiter(c) ==> c in Emit(st, c)
  {
  }

  lemma LiteralBack(v: string, rest: string)
    requires IsLiteral(v) && (rest == "" || Delimiter(rest[0]))
    ensures ReadLiteral(Code, v + rest) == (v, rest)
  {
    LiteralBackFrom(Code, v, rest);
  }

  /** What ends a list: not another item, and nothing that could belong to one. */
  predicate Ends(rest: string) {
    (rest == "" || (rest[0] != '`' && Delimiter(rest[0]))) && Expect(rest, ", ") == None
  }

  lemma IdentStep(name: string, rest: string, tail: string)
    ensures Ends(rest) ==> ReadIdents(Ident(name) + rest) == Some(([name], rest))
    ensures ReadIdents(tail).Some? ==>
              ReadIdents(Ident(name) + (", " + tail))
                == Some(([name] + ReadIdents(tail).value.0, ReadIdents(tail).value.1))
  {
    if Ends(rest) {
      IdentBack(name, rest);
    }
    IdentBack(name, ", " + tail);
    ExpectBack(", ", tail);
  }

  lemma {:induction false} IdentsBack(names: seq<string>, rest: string)
    requires names != [] && Ends(rest)
    ensures ReadIdents(Join(Idents(names)) + rest) == Some((names, rest))
    decreases names
  {
    assert Idents(names)[0] == Ident(names[0]);
    if |names| == 1 {
      IdentStep(names[0], rest, "");
      assert names == [names[0]];
    } else {
      IdentsBack(names[1..], rest);
      assert Idents(names)[1..] == Idents(names[1..]);
      JoinCons(Idents(names), rest);
      IdentStep(names[0], rest, Join(Idents(names[1..])) + rest);
      assert [names[0]] + names[1..] == names;
    }
  }

  lemma LiteralStep(v: string, rest: string, tail: string)
    requires IsLiteral(v)
    ensures Ends(rest) ==> ReadLiterals(v + rest) == Some(([v], rest))
    ensures ReadLiterals(tail).Some? ==>
              ReadLiterals(v + (", " + tail)) == Some(([v] + ReadLiterals(tail).value.0, ReadLiterals(tail).value.1))
  {
    if Ends(rest) {
      LiteralBack(v, rest);
    }
    LiteralBack(v, ", " + tail);
    ExpectBack(", ", tail);
  }

  lemma {:induction false} LiteralsBack(values: seq<string>, rest: string)
    requires values != [] && Ends(rest) && forall i :: 0 <= i < |values| ==> IsLiteral(values[i])
    ensures ReadLiterals(Join(values) + rest) == Some((values, rest))
    decreases values
  {
    if |values| == 1 {
      LiteralStep(values[0], rest, "");
      assert values == [values[0]];
    } else {
      var tail := Join(values[1..]) + rest;
      LiteralsBack(values[1..], rest);
      JoinCons(values, rest);
      LiteralStep(values[0], rest, tail);
      assert Join(values) + rest == values[0] + (", " + tail);
      assert [values[0]] + values[1..] == values;
    }
  }

  /** `<column> = <value>`, read the way the reader of a list starts. */
  lemma AssignBack(name: string, v: string, rest: string)
    requires IsLiteral(v) && (rest == "" || Delimiter(rest[0]))
    ensures var s := Ident(name) + " = " + v + rest;
            && ReadIdent(s) == Some((name, " = " + (v + rest)))
            && Expect(" = " + (v + rest), " = ") == Some(v + rest)
            && ReadLiteral(Code, v + rest) == (v, rest)
  {
    assert Ident(name) + " = " + v + rest == Ident(name) + (" = " + (v + rest));
    IdentBack(name, " = " + (v + rest));
    ExpectBack(" = ", v + rest);
    LiteralBack(v, rest);
  }

  lemma LastAssign(pair: (string, string), rest: string)
    requires IsLiteral(pair.1) && Ends(rest)
    ensures ReadAssigns(Assign(pair) + rest) == Some(([pair], rest))
  {
    AssignBack(pair.0, pair.1, rest);
  }

  lemma AssignStep(pair: (string, string), tail: string)
    requires IsLiteral(pair.1) && ReadAssigns(tail).Some?
    ensures ReadAssigns(Assign(pair) + (", " + tail))
         == Some(([pair] + ReadAssigns(tail).value.0, ReadAssigns(tail).value.1))
  {
    AssignBack(pair.0, pair.1, ", " + tail);
    ExpectBack(", ", tail);
  }

  lemma AssignsParts(sets: seq<(string, string)>)
    requires sets != []
    ensures |Assigns(sets)| == |sets| && Assigns(sets)[0] == Assign(sets[0]) && Assigns(sets)[1..] == Assigns(sets[1..])
  {
  }

  lemma {:induction false} AssignsBack(sets: seq<(string, string)>, rest: string)
    requires sets != [] && Ends(rest) && forall i :: 0 <= i < |sets| ==> IsLiteral(sets[i].1)
    ensures ReadAssigns(Join(Assigns(sets)) + rest) == Some((sets, rest))
    decreases sets
  {
    if |sets| == 1 {
      AssignsParts(sets);
      LastAssign(sets[0], rest);
      assert sets == [sets[0]];
    } else {
      AssignsBack(sets[1..], rest);
      OneMoreAssign(sets, rest);
    }
  }

  lemma OneMoreAssign(sets: seq<(string, string)>, rest: string)
    requires |sets| > 1 && IsLiteral(sets[0].1)
    requires ReadAssigns(Join(Assigns(sets[1..])) + rest) == Some((sets[1..], rest))
    ensures ReadAssigns(Join(Assigns(sets)) + rest) == Some((sets, rest))
  {
    AssignsParts(sets);
    JoinCons(Assigns(sets), rest);
    AssignStep(sets[0], Join(Assigns(sets[1..])) + rest);
    assert [sets[0]] + sets[1..] == sets;
  }

  lemma JoinCons(items: seq<string>, rest: string)
    requires |items| > 1
    ensures Join(items) + rest == items[0] + (", " + (Join(items[1..]) + rest))
  {
  }

  lemma WhereBack(key: string, v: string, rest: string)
    requires IsLiteral(v) && (rest == "" || Delimiter(rest[0]))
    ensures ReadWhere(" WHERE " + (Ident(key) + (" = " + (v + rest)))) == Some((key, v, rest))
  {
    ExpectBack(" WHERE ", Ident(key) + (" = " + (v + rest)));
    IdentBack(key, " = " + (v + rest));
    ExpectBack(" = ", v + rest);
    LiteralBack(v, rest);
  }

  // --- Generated statements read back -----------------------------------------------------

  lemma WhereGroups(where: string, key: string, eq: string, v: string, rest: string)
    ensures where + key + eq + v + rest == where + (key + (eq + (v + rest)))
  {
  }

  lemma WhereBackFlat(key: string, v: string, rest: string)
    requires IsLiteral(v) && (rest == "" || Delimiter(rest[0]))
    ensures ReadWhere(" WHERE " + Ident(key) + " = " + v + rest) == Some((key, v, rest))
  {
    WhereBack(key, v, rest);
    WhereGroups(" WHERE ", Ident(key), " = ", v, rest);
  }

  lemma FindGroups(select: string, columns: string, from: string, table: string,
                   where: string, key: string, eq: string, v: string, limit: string)
    ensures select + columns + from + table + where + key + eq + v + limit
         == select + (columns + (from + (table + (where + key + eq + v + limit))))
  {
  }

  lemma FindBack(table: string, columns: seq<string>, key: string, v: string)
    requires columns != [] && IsLiteral(v)
    ensures Parse(Render(Find(table, columns, key, v))) == Some(Find(table, columns, key, v))
  {
    var sql := Render(Find(table, columns, key, v));
    var s3 := " WHERE " + Ident(key) + " = " + v + " LIMIT 1";
    var s2 := " FROM " + (Ident(table) + s3);
    var s1 := Join(Idents(columns)) + s2;
    FindGroups("SELECT ", Join(Idents(columns)), " FROM ", Ident(table), " WHERE ", Ident(key), " = ", v, " LIMIT 1");
    ExpectBack("SELECT ", s1);
    IdentsBack(columns, s2);
    ExpectBack(" FROM ", Ident(table) + s3);
    IdentBack(table, s3);
    WhereBackFlat(key, v, " LIMIT 1");
  }

  lemma InsertGroups(into: string, table: string, open: string, columns: string, mid: string, values: string,
    close: string)
    ensures into + table + open + columns + mid + values + close
         == into + (table + (open + (columns + (mid + (values + close)))))
  {
  }

  lemma InsertBack(table: string, columns: seq<string>, values: seq<string>)
    requires WellFormed(Insert(table, columns, values))
    ensures Parse(Render(Insert(table, columns, values))) == Some(Insert(table, columns, values))
  {
    var sql := Render(Insert(table, columns, values));
    var s3 := Join(values) + ")";
    var s2 := Join(Idents(columns)) + (") VALUES (" + s3);
    var s1 := Ident(table) + (" (" + s2);
    InsertGroups("INSERT INTO ", Ident(table), " (", Join(Idents(columns)), ") VALUES (", Join(values), ")");
    ExpectBack("INSERT INTO ", s1);
    IdentBack(table, " (" + s2);
    ExpectBack(" (", s2);
    IdentsBack(columns, ") VALUES (" + s3);
    ExpectBack(") VALUES (", s3);
    LiteralsBack(values, ")");
  }

  lemma UpdateGroups(update: string, table: string, setWord: string, sets: string,
                     where: string, key: string, eq: string, v: string)
    ensures update + table + setWord + sets + where + key + eq + v
         == update + (table + (setWord + (sets + (where + key + eq + v + ""))))
  {
  }

  lemma UpdateBack(table: string, sets: seq<(string, string)>, key: string, v: string)
    requires WellFormed(Update(table, sets, key, v))
    ensures Parse(Render(Update(table, sets, key, v))) == Some(Update(table, sets, key, v))
  {
    var s2 := Join(Assigns(sets)) + (" WHERE " + Ident(key) + " = " + v + "");
    UpdateGroups("UPDATE ", Ident(table), " SET ", Join(Assigns(sets)), " WHERE ", Ident(key), " = ", v);
    UpdateTailBack(table, sets, key, v);
    assert ("UPDATE " + (Ident(table) + (" SET " + s2)))[0] == 'U';
  }

  lemma UpdateTailBack(table: string, sets: seq<(string, string)>, key: string, v: string)
    requires WellFormed(Update(table, sets, key, v))
    ensures var s2 := Join(Assigns(sets)) + (" WHERE " + Ident(key) + " = " + v + "");
            ParseUpdate("UPDATE " + (Ident(table) + (" SET " + s2))) == Some(Update(table, sets, key, v))
  {
    var s3 := " WHERE " + Ident(key) + " = " + v + "";
    var s2 := Join(Assigns(sets)) + s3;
    ExpectBack("UPDATE ", Ident(table) + (" SET " + s2));
    IdentBack(table, " SET " + s2);
    ExpectBack(" SET ", s2);
    AssignsBack(sets, s3);
    WhereBackFlat(key, v, "");
  }

  lemma DeleteGroups(del: string, table: string, where: string, key: string, eq: string, v: string)
    ensures del + table + where + key + eq + v == del + (table + (where + key + eq + v + ""))
  {
  }

  lemma DeleteBack(table: string, key: string, v: string)
    requires IsLiteral(v)
    ensures Parse(Render(Delete(table, key, v))) == Some(Delete(table, key, v))
  {
    var s2 := " WHERE " + Ident(key) + " = " + v + "";
    DeleteGroups("DELETE FROM ", Ident(table), " WHERE ", Ident(key), " = ", v);
    DeleteTailBack(table, key, v);
    assert ("DELETE FROM " + (Ident(table) + s2))[0] == 'D';
  }

  lemma DeleteTailBack(table: string, key: string, v: string)
    requires IsLiteral(v)
    ensures var s2 := " WHERE " + Ident(key) + " = " + v + "";
            ParseDelete("DELETE FROM " + (Ident(table) + s2)) == Some(Delete(table, key, v))
  {
    var s2 := " WHERE " + Ident(key) + " = " + v + "";
    ExpectBack("DELETE FROM ", Ident(table) + s2);
    IdentBack(table, s2);
    WhereBackFlat(key, v, "");
  }

  /** Every generated statement reads back as exactly the table, columns, key and values it
      was built from, in order. */
  lemma RenderParses(s: Statement)
    requires WellFormed(s)
    ensures Parse(Render(s)) == Some(s)
  {
    match s
    case Find(table, columns, key, v) => FindBack(table, columns, key, v);
    case Insert(table, columns, values) => InsertBack(table, columns, values);
    case Update(table, sets, key, v) => UpdateBack(table, sets, key, v);
    case Delete(table, key, v) => DeleteBack(table, key, v);
  }

  /** So distinct statements have distinct SQL. */
  lemma RenderInjective(a: Statement, b: Statement)
    requires WellFormed(a) && WellFormed(b) && Render(a) == Render(b)
    ensures a == b
  {
    RenderParses(a);
    RenderParses(b);
  }
}
