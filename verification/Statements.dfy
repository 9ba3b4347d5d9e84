/** The SQL text of the active-record layer: what `Model::build*` produces, how the
    scanners read it, and how to read it back. */
module Statements {
  import opened SqlScan

  /** What one generated statement says. Values are SQL literals, already rendered. */
  datatype Statement =
    | Find(table: string, columns: seq<string>, key: string, keyValue: string)
    | Insert(table: string, columns: seq<string>, values: seq<string>)
    | Update(table: string, sets: seq<(string, string)>, key: string, keyValue: string)
    | Delete(table: string, key: string, keyValue: string)

  function Doubled(name: string): string {
    if name == "" then ""
    else (if name[0] == '`' then "``" else [name[0]]) + Doubled(name[1..])
  }

  function Ident(name: string): string {
    "`" + Doubled(name) + "`"
  }

  function Join(items: seq<string>): string {
    if items == [] then ""
    else if |items| == 1 then items[0]
    else items[0] + ", " + Join(items[1..])
  }

  function Idents(names: seq<string>): seq<string> {
    seq(|names|, i requires 0 <= i < |names| => Ident(names[i]))
  }

  function Assign(pair: (string, string)): string {
    Ident(pair.0) + " = " + pair.1
  }

  function Assigns(sets: seq<(string, string)>): seq<string> {
    seq(|sets|, i requires 0 <= i < |sets| => Assign(sets[i]))
  }

  function Render(s: Statement): string {
    match s
    case Find(table, columns, key, keyValue) =>
      "SELECT " + Join(Idents(columns)) + " FROM " + Ident(table) + " WHERE " + Ident(key) + " = " + keyValue +
        " LIMIT 1"
    case Insert(table, columns, values) =>
      "INSERT INTO " + Ident(table) + " (" + Join(Idents(columns)) + ") VALUES (" + Join(values) + ")"
    case Update(table, sets, key, keyValue) =>
      "UPDATE " + Ident(table) + " SET " + Join(Assigns(sets)) + " WHERE " + Ident(key) + " = " + keyValue
    case Delete(table, key, keyValue) =>
      "DELETE FROM " + Ident(table) + " WHERE " + Ident(key) + " = " + keyValue
  }

  // --- Literals ---------------------------------------------------------------------

  predicate Delimiter(c: char) {
    c == ',' || c == ')' || c == ' ' || c == ';' || c == '?'
  }

  /** A piece of SQL that starts and ends in code and shows no delimiter there. */
  ghost predicate IsLiteral(v: string) {
    v != "" && Run(Code, v) == Code && forall c :: c in Out(Code, v) ==> !Delimiter(c)
  }

  /** Characters of rendered numbers and of NULL. */
  predicate NumberChar(c: char) {
    '0' <= c <= '9' || 'A' <= c <= 'Z' || 'a' <= c <= 'z' || c == '.' || c == '+'
  }

  predicate Unsigned(s: string) {
    s != "" && forall i :: 0 <= i < |s| ==> NumberChar(s[i])
  }

  /** The texts `std::to_string` gives for a number: a sign, and digits or a word such as `inf`. */
  predicate NumberText(s: string) {
    Unsigned(s) || (s != "" && s[0] == '-' && Unsigned(s[1..]))
  }

  function Digits(n: nat): (s: string)
    ensures s != "" && forall i :: 0 <= i < |s| ==> '0' <= s[i] <= '9'
  {
    var last := ['0' + (n % 10) as char];
    if n < 10 then last else Digits(n / 10) + last
  }

  function IntText(v: int): (s: string)
    ensures NumberText(s)
  {
    if v < 0 then "-" + Digits(-v) else Digits(v)
  }

  // --- How the scanners read it --------------------------------------------------------

  lemma ReadsConcat(a: string, x: string, b: string, y: string)
    requires Reads(a, x) && Reads(b, y)
    ensures Reads(a + b, x + y)
  {
    RunConcat(Code, a, b);
    OutConcat(Code, a, b);
  }

  /** An identifier is invisible at code level, whatever its name. */
  lemma IdentReads(name: string)
    ensures Reads(Ident(name), "")
  {
    DoubledStays(name);
    var d := Doubled(name);
    RunConcat(Quoted('`'), d, "`");
    OutConcat(Quoted('`'), d, "`");
    assert Ident(name)[1..] == d + "`";
    assert Run(Quoted('`'), "`") == Code && Out(Quoted('`'), "`") == "";
  }

  lemma {:induction false} DoubledStays(name: string)
    ensures Run(Quoted('`'), Doubled(name)) == Quoted('`') && Out(Quoted('`'), Doubled(name)) == ""
    decreases name
  {
    if name == "" {
    } else {
      var c := if name[0] == '`' then "``" else [name[0]];
      DoubledStays(name[1..]);
      RunConcat(Quoted('`'), c, Doubled(name[1..]));
      OutConcat(Quoted('`'), c, Doubled(name[1..]));
      if name[0] == '`' {
        assert c[1..] == "`" && "`"[1..] == "";
        assert Out(Quoted('`'), c) == Emit(Quoted('`'), '`') + Out(Code, "`");
        assert Run(Code, "`") == Quoted('`') && Out(Code, "`") == "";
      } else {
        assert c[1..] == "";
      }
    }
  }

  lemma NumberIsLiteral(s: string)
    requires NumberText(s)
    ensures IsLiteral(s) && Reads(s, s)
  {
    if Unsigned(s) {
      PlainReads(s);
    } else {
      SignedReads(s, s[1..]);
    }
  }

  lemma SignedReads(s: string, t: string)
    requires s == "-" + t && Unsigned(t)
    ensures Reads(s, s)
  {
    PlainReads(t[1..]);
    assert s[1..] == t;
    assert Step(Code, '-') == Dash && Step(Dash, t[0]) == Code && Emit(Dash, t[0]) == "-" + [t[0]];
    assert Out(Code, s) == "" + Out(Dash, t);
    assert Out(Dash, t) == "-" + [t[0]] + t[1..];
    assert [t[0]] + t[1..] == t;
  }

  /** A single-quoted escaped string is a literal, invisible at code level. */
  lemma StringIsLiteral(v: string, e: string)
    requires EscapesTo(v, e)
    ensures IsLiteral("'" + e + "'") && Reads("'" + e + "'", "")
  {
    EscapedValueStaysQuoted(v, e, '\'');
    RunConcat(Quoted('\''), e, "'");
    OutConcat(Quoted('\''), e, "'");
    assert ("'" + e + "'")[1..] == e + "'";
    assert Run(Quoted('\''), "'") == Code && Out(Quoted('\''), "'") == "";
  }

  // --- The shape of a statement: everything a scanner sees outside quotes --------------

  function Blanks(n: nat): seq<string> {
    seq(n, _ => "")
  }

  function Shown(values: seq<string>): seq<string> {
    seq(|values|, i requires 0 <= i < |values| => Out(Code, values[i]))
  }

  function ShownAssigns(sets: seq<(string, string)>): seq<string> {
    seq(|sets|, i requires 0 <= i < |sets| => " = " + Out(Code, sets[i].1))
  }

  /** The code-level text of a statement. It names no table and no column, and shows of each
      value only what that value shows outside quotes. */
  function Shape(s: Statement): string {
    match s
    case Find(_, columns, _, keyValue) =>
      "SELECT " + Join(Blanks(|columns|)) + " FROM " + " WHERE " + " = " + Out(Code, keyValue) + " LIMIT 1"
    case Insert(_, columns, values) =>
      "INSERT INTO " + " (" + Join(Blanks(|columns|)) + ") VALUES (" + Join(Shown(values)) + ")"
    case Update(_, sets, _, keyValue) =>
      "UPDATE " + " SET " + Join(ShownAssigns(sets)) + " WHERE " + " = " + Out(Code, keyValue)
    case Delete(_, _, keyValue) =>
      "DELETE FROM " + " WHERE " + " = " + Out(Code, keyValue)
  }

  /** What the callers guarantee: something to list, and every value a literal. */
  ghost predicate WellFormed(s: Statement) {
    match s
    case Find(_, columns, _, keyValue) => columns != [] && IsLiteral(keyValue)
    case Insert(_, columns, values) =>
      |columns| == |values| > 0 && forall i :: 0 <= i < |values| ==> IsLiteral(values[i])
    case Update(_, sets, _, keyValue) =>
      sets != [] && IsLiteral(keyValue) && forall i :: 0 <= i < |sets| ==> IsLiteral(sets[i].1)
    case Delete(_, _, keyValue) => IsLiteral(keyValue)
  }

  lemma {:induction false} JoinReads(items: seq<string>, codes: seq<string>)
    requires |items| == |codes| && forall i :: 0 <= i < |items| ==> Reads(items[i], codes[i])
    ensures Reads(Join(items), Join(codes))
    decreases items
  {
    if |items| <= 1 {
    } else {
      JoinReads(items[1..], codes[1..]);
      PlainReads(", ");
      ReadsConcat(items[0], codes[0], ", ", ", ");
      ReadsConcat(items[0] + ", ", codes[0] + ", ", Join(items[1..]), Join(codes[1..]));
    }
  }

  lemma IdentsRead(names: seq<string>)
    ensures Reads(Join(Idents(names)), Join(Blanks(|names|)))
  {
    forall i | 0 <= i < |names| ensures Reads(Idents(names)[i], Blanks(|names|)[i]) {
      IdentReads(names[i]);
    }
    JoinReads(Idents(names), Blanks(|names|));
  }

  lemma AssignsRead(sets: seq<(string, string)>)
    requires forall i :: 0 <= i < |sets| ==> IsLiteral(sets[i].1)
    ensures Reads(Join(Assigns(sets)), Join(ShownAssigns(sets)))
  {
    forall i | 0 <= i < |sets| ensures Reads(Assigns(sets)[i], ShownAssigns(sets)[i]) {
      AppendIdent("", "", sets[i].0);
      assert "" + Ident(sets[i].0) == Ident(sets[i].0);
      AppendText(Ident(sets[i].0), "", " = ");
      assert "" + " = " == " = ";
      ReadsConcat(Ident(sets[i].0) + " = ", " = ", sets[i].1, Out(Code, sets[i].1));
    }
    JoinReads(Assigns(sets), ShownAssigns(sets));
  }

  lemma AppendIdent(a: string, x: string, name: string)
    requires Reads(a, x)
    ensures Reads(a + Ident(name), x)
  {
    IdentReads(name);
    ReadsConcat(a, x, Ident(name), "");
    assert x + "" == x;
  }

  /** A word of the generated SQL: code through and through. */
  predicate Word(word: string) {
    forall i :: 0 <= i < |word| ==> Enter(word[i]) == Code
  }

  lemma AppendText(a: string, x: string, word: string)
    requires Reads(a, x) && Word(word)
    ensures Reads(a + word, x + word)
  {
    PlainReads(word);
    ReadsConcat(a, x, word, word);
  }

  /** `WHERE <key> = <value>`, the tail three of the statements share. */
  lemma AppendWhere(a: string, x: string, where: string, key: string, eq: string, keyValue: string)
    requires Reads(a, x) && IsLiteral(keyValue) && Word(where) && Word(eq)
    ensures Reads(a + where + Ident(key) + eq + keyValue, x + where + eq + Out(Code, keyValue))
  {
    AppendText(a, x, where);
    AppendIdent(a + where, x + where, key);
    AppendText(a + where + Ident(key), x + where, eq);
    ReadsConcat(a + where + Ident(key) + eq, x + where + eq, keyValue, Out(Code, keyValue));
  }

  lemma Head(first: string, a: string, x: string, second: string)
    requires Word(first) && Reads(a, x) && Word(second)
    ensures Reads(first + a + second, first + x + second)
  {
    PlainReads(first);
    ReadsConcat(first, first, a, x);
    AppendText(first + a, first + x, second);
  }

  lemma HeadTable(first: string, table: string, second: string)
    requires Word(first) && Word(second)
    ensures Reads(first + Ident(table) + second, first + second)
  {
    IdentReads(table);
    Head(first, Ident(table), "", second);
    assert first + "" + second == first + second;
  }

  /** Whatever the table, the columns, the key and the values, the scanner ends in code
      and has seen exactly the statement's shape. */
  lemma RenderReads(s: Statement)
    requires WellFormed(s)
    ensures Reads(Render(s), Shape(s))
  {
    match s
    case Find(table, columns, key, keyValue) =>
      Keywords();
      IdentsRead(columns);
      FindReads("SELECT ", Join(Idents(columns)), Join(Blanks(|columns|)), " FROM ", table, " WHERE ", key, " = ",
        keyValue, " LIMIT 1");
    case Insert(table, columns, values) =>
      Keywords();
      IdentsRead(columns);
      JoinReads(values, Shown(values));
      InsertReads("INSERT INTO ", table, " (", Join(Idents(columns)), Join(Blanks(|columns|)), ") VALUES (",
        Join(values), Join(Shown(values)), ")");
    case Update(table, sets, key, keyValue) =>
      Keywords();
      AssignsRead(sets);
      UpdateReads("UPDATE ", table, " SET ", Join(Assigns(sets)), Join(ShownAssigns(sets)), " WHERE ", key, " = ",
        keyValue);
    case Delete(table, key, keyValue) =>
      Keywords();
      DeleteReads("DELETE FROM ", table, " WHERE ", key, " = ", keyValue);
  }

  lemma Keywords()
    ensures Word("SELECT ") && Word(" FROM ") && Word(" WHERE ") && Word(" = ") && Word(" LIMIT 1")
    ensures Word("INSERT INTO ") && Word(" (") && Word(") VALUES (") && Word(")")
    ensures Word("UPDATE ") && Word(" SET ") && Word("DELETE FROM ")
  {
  }

  lemma DeleteReads(del: string, table: string, where: string, key: string, eq: string, keyValue: string)
    requires Word(del) && Word(where) && Word(eq) && IsLiteral(keyValue)
    ensures Reads(del + Ident(table) + where + Ident(key) + eq + keyValue, del + where + eq + Out(Code, keyValue))
  {
    PlainReads(del);
    AppendIdent(del, del, table);
    AppendWhere(del + Ident(table), del, where, key, eq, keyValue);
  }

  lemma FindReads(select: string, a: string, x: string, from: string, table: string,
                  where: string, key: string, eq: string, keyValue: string, limit: string)
    requires Word(select) && Word(from) && Word(where) && Word(eq) && Word(limit) && Reads(a, x) && IsLiteral(keyValue)
    ensures Reads(select + a + from + Ident(table) + where + Ident(key) + eq + keyValue + limit,
                  select + x + from + where + eq + Out(Code, keyValue) + limit)
  {
    Head(select, a, x, from);
    AppendIdent(select + a + from, select + x + from, table);
    AppendWhere(select + a + from + Ident(table), select + x + from, where, key, eq, keyValue);
    AppendText(select + a + from + Ident(table) + where + Ident(key) + eq + keyValue,
               select + x + from + where + eq + Out(Code, keyValue), limit);
  }

  lemma InsertReads(into: string, table: string, open: string, a: string, x: string,
                    mid: string, b: string, y: string, close: string)
    requires Word(into) && Word(open) && Word(mid) && Word(close) && Reads(a, x) && Reads(b, y)
    ensures Reads(into + Ident(table) + open + a + mid + b + close, into + open + x + mid + y + close)
  {
    HeadTable(into, table, open);
    ReadsConcat(into + Ident(table) + open, into + open, a, x);
    AppendText(into + Ident(table) + open + a, into + open + x, mid);
    ReadsConcat(into + Ident(table) + open + a + mid, into + open + x + mid, b, y);
    AppendText(into + Ident(table) + open + a + mid + b, into + open + x + mid + y, close);
  }

  lemma UpdateReads(update: string, table: string, setWord: string, a: string, x: string,
                    where: string, key: string, eq: string, keyValue: string)
    requires Word(update) && Word(setWord) && Word(where) && Word(eq) && Reads(a, x) && IsLiteral(keyValue)
    ensures Reads(update + Ident(table) + setWord + a + where + Ident(key) + eq + keyValue,
                  update + setWord + x + where + eq + Out(Code, keyValue))
  {
    HeadTable(update, table, setWord);
    ReadsConcat(update + Ident(table) + setWord, update + setWord, a, x);
    AppendWhere(update + Ident(table) + setWord + a, update + setWord + x, where, key, eq, keyValue);
  }

  lemma {:induction false} JoinLacks(items: seq<string>, c: char)
    requires c != ',' && c != ' ' && forall i :: 0 <= i < |items| ==> c !in items[i]
    ensures c !in Join(items)
    decreases items
  {
    if |items| <= 1 {
    } else {
      JoinLacks(items[1..], c);
    }
  }

  /** Neither `;` nor `?`. */
  predicate Clean(s: string) {
    ';' !in s && '?' !in s
  }

  lemma CleanConcat(a: string, b: string)
    requires Clean(a) && Clean(b)
    ensures Clean(a + b)
  {
  }

  lemma CleanWords()
    ensures Clean("SELECT ") && Clean(" FROM ") && Clean(" WHERE ") && Clean(" = ") && Clean(" LIMIT 1")
    ensures Clean("INSERT INTO ") && Clean(" (") && Clean(") VALUES (") && Clean(")")
    ensures Clean("UPDATE ") && Clean(" SET ") && Clean("DELETE FROM ")
  {
    CleanQueryWords();
    CleanChangeWords();
  }

  lemma CleanQueryWords()
    ensures Clean("SELECT ") && Clean(" FROM ") && Clean(" WHERE ") && Clean(" = ") && Clean(" LIMIT 1")
  {
  }

  lemma CleanChangeWords()
    ensures Clean("INSERT INTO ") && Clean(" (") && Clean(") VALUES (") && Clean(")")
    ensures Clean("UPDATE ") && Clean(" SET ") && Clean("DELETE FROM ")
  {
  }

  lemma CleanJoin(items: seq<string>)
    requires forall i :: 0 <= i < |items| ==> Clean(items[i])
    ensures Clean(Join(items))
  {
    JoinLacks(items, ';');
    JoinLacks(items, '?');
  }

  lemma CleanConcats(a: string, b: string, c: string, d: string, e: string, f: string)
    requires Clean(a) && Clean(b) && Clean(c) && Clean(d) && Clean(e) && Clean(f)
    ensures Clean(a + b + c + d + e + f)
  {
    CleanConcat(a, b);
    CleanConcat(a + b, c);
    CleanConcat(a + b + c, d);
    CleanConcat(a + b + c + d, e);
    CleanConcat(a + b + c + d + e, f);
  }

  lemma ShapeIsClean(s: Statement)
    requires WellFormed(s)
    ensures Clean(Shape(s))
  {
    CleanWords();
    match s
    case Find(_, columns, _, keyValue) =>
      CleanJoin(Blanks(|columns|));
      CleanConcats("SELECT ", Join(Blanks(|columns|)), " FROM ", " WHERE ", " = ", Out(Code, keyValue));
      CleanConcat("SELECT " + Join(Blanks(|columns|)) + " FROM " + " WHERE " + " = " + Out(Code, keyValue), " LIMIT 1");
    case Insert(_, columns, values) =>
      CleanJoin(Blanks(|columns|));
      CleanJoin(Shown(values));
      CleanConcats("INSERT INTO ", " (", Join(Blanks(|columns|)), ") VALUES (", Join(Shown(values)), ")");
    case Update(_, sets, _, keyValue) =>
      forall i | 0 <= i < |sets| ensures Clean(ShownAssigns(sets)[i]) {
        CleanConcat(" = ", Out(Code, sets[i].1));
      }
      CleanJoin(ShownAssigns(sets));
      CleanConcats("UPDATE ", " SET ", Join(ShownAssigns(sets)), " WHERE ", " = ", Out(Code, keyValue));
    case Delete(_, _, keyValue) =>
      CleanConcat("DELETE FROM ", " WHERE ");
      CleanConcat("DELETE FROM " + " WHERE ", " = ");
      CleanConcat("DELETE FROM " + " WHERE " + " = ", Out(Code, keyValue));
  }

  lemma {:induction false} CountAbsent(c: char, s: string)
    requires c !in s
    ensures Count(c, s) == 0
    decreases s
  {
    if s == "" {
    } else {
      CountAbsent(c, s[1..]);
    }
  }

  /** The promise of the generated SQL: it ends outside every quote and comment, holds no
      second statement and no placeholder. */
  lemma GeneratedSqlIsOneStatement(s: Statement)
    requires WellFormed(s)
    ensures Run(Code, Render(s)) == Code && CodeText(Render(s)) == Shape(s)
    ensures !IsMulti(Render(s)) && Placeholders(Render(s)) == 0
  {
    RenderReads(s);
    assert Shape(s) + "" == Shape(s);
    ShapeIsClean(s);
    CountAbsent('?', Shape(s));
  }
}
