/** The active-record model: which columns are bound to which script variables, and the SQL
    its operations generate. */
module Models {
  import opened Options
  import opened SqlScan
  import opened Statements
  import opened Parsing

  datatype FieldType = IntField | FloatField | StringField

  /** One column bound to the script variable at `addr`; address 0 is the null pointer. */
  datatype ModelField = ModelField(column: string, ty: FieldType, addr: nat, maxlen: int)

  datatype ModelOp = FindOp | InsertOp | UpdateOp | DeleteOp

  /** The script's memory as the model reads it. Floats come as their printed text. */
  datatype Memory = Memory(intAt: nat -> int, floatAt: nat -> string, stringAt: nat -> string)

  /** The contract of the client library's string escaping in its default mode. */
  ghost predicate Escapes(esc: string -> string) {
    forall v :: EscapesTo(v, esc(v))
  }

  /** Escaping by a table: a character with an entry becomes a backslash and that entry. */
  function EscapedBy(table: map<char, char>, v: string): string {
    if v == "" then "" else (if v[0] in table then ['\\', table[v[0]]] else [v[0]]) + EscapedBy(table, v[1..])
  }

  /** The least an escaper must do, and what the client library does in its default mode. */
  const LEAST_ESCAPES: map<char, char> := map['\\' := '\\', '\'' := '\'', '"' := '"']
  const LIBRARY_ESCAPES: map<char, char> :=
    LEAST_ESCAPES + map['\0' := '0', '\n' := 'n', '\r' := 'r', 26 as char := 'Z']

  lemma {:induction false} TableEscapes(table: map<char, char>, v: string)
    requires LEAST_ESCAPES.Keys <= table.Keys
    ensures EscapesTo(v, EscapedBy(table, v))
    decreases v
  {
    if v == "" {
    } else {
      TableEscapes(table, v[1..]);
      var e := EscapedBy(table, v);
      assert '\\' in table && '\'' in table && '"' in table;
      if v[0] in table {
        assert e[2..] == EscapedBy(table, v[1..]);
      } else {
        assert e[1..] == EscapedBy(table, v[1..]);
      }
    }
  }

  function LibraryEscape(v: string): string {
    EscapedBy(LIBRARY_ESCAPES, v)
  }

  function LeastEscape(v: string): string {
    EscapedBy(LEAST_ESCAPES, v)
  }

  /** The contract is met by the library's own table, which copies backticks, and by the least
      one. */
  lemma LibraryEscaperFits()
    ensures Escapes(LibraryEscape) && LibraryEscape("`") == "`"
  {
    forall v: string ensures EscapesTo(v, LibraryEscape(v)) {
      TableEscapes(LIBRARY_ESCAPES, v);
    }
    EscapedOne(LIBRARY_ESCAPES, '`');
  }

  lemma LeastEscaperFits()
    ensures Escapes(LeastEscape)
  {
    forall v: string ensures EscapesTo(v, LeastEscape(v)) {
      TableEscapes(LEAST_ESCAPES, v);
    }
  }

  /** The library's replacements undone. */
  function Unescape(e: string): string
    decreases e
  {
    if e == "" then ""
    else if e[0] != '\\' || |e| == 1 then [e[0]] + Unescape(e[1..])
    else
      var c := if e[1] == '0' then '\0' else if e[1] == 'n' then '\n' else if e[1] == 'r' then '\r'
               else if e[1] == 'Z' then 26 as char else e[1];
      [c] + Unescape(e[2..])
  }

  /** The library's escaping loses nothing. */
  lemma {:induction false} LibraryEscapeBack(v: string)
    ensures Unescape(LibraryEscape(v)) == v
    decreases v
  {
    if v == "" {
    } else {
      LibraryEscapeBack(v[1..]);
      var e := LibraryEscape(v);
      assert [v[0]] + v[1..] == v;
      if v[0] in LIBRARY_ESCAPES {
        assert e == ['\\', LIBRARY_ESCAPES[v[0]]] + LibraryEscape(v[1..]) && e[2..] == LibraryEscape(v[1..]);
      } else {
        assert e == [v[0]] + LibraryEscape(v[1..]) && e[1..] == LibraryEscape(v[1..]);
        assert '\\' in LIBRARY_ESCAPES;
      }
    }
  }

  lemma EscapedOne(table: map<char, char>, c: char)
    ensures EscapedBy(table, [c]) == if c in table then ['\\', table[c]] else [c]
  {
    assert [c][1..] == "" && EscapedBy(table, "") == "";
  }

  ghost predicate PrintsFloats(mem: Memory) {
    forall a :: NumberText(mem.floatAt(a))
  }

  function FieldLiteral(f: ModelField, mem: Memory, esc: string -> string): string {
    if f.addr == 0 then "NULL"
    else match f.ty
      case IntField => IntText(mem.intAt(f.addr))
      case FloatField => mem.floatAt(f.addr)
      case StringField => "'" + esc(mem.stringAt(f.addr)) + "'"
  }

  /** What a literal must say of the variable bound to a field: its number, its float as
      printed, or its text, escaped between quotes; NULL when there is no variable. */
  ghost predicate Denotes(lit: string, f: ModelField, mem: Memory) {
    if f.addr == 0 then lit == "NULL"
    else if f.ty.IntField? then ReadInt(lit) == Some(mem.intAt(f.addr))
    else if f.ty.FloatField? then lit == mem.floatAt(f.addr)
    else
      && |lit| >= 2 && lit[0] == '\'' && lit[|lit| - 1] == '\''
      && EscapesTo(mem.stringAt(f.addr), lit[1..|lit| - 1])
  }

  /** Every bound value renders as one self-contained literal, and as the variable's own. */
  lemma FieldLiteralIsLiteral(f: ModelField, mem: Memory, esc: string -> string)
    requires Escapes(esc) && PrintsFloats(mem)
    ensures IsLiteral(FieldLiteral(f, mem, esc)) && Denotes(FieldLiteral(f, mem, esc), f, mem)
  {
    if f.addr == 0 {
      assert Unsigned("NULL");
      NumberIsLiteral("NULL");
    } else {
      match f.ty
      case IntField =>
        NumberIsLiteral(IntText(mem.intAt(f.addr)));
        IntBack(mem.intAt(f.addr));
      case FloatField => NumberIsLiteral(mem.floatAt(f.addr));
      case StringField =>
        var e := esc(mem.stringAt(f.addr));
        StringIsLiteral(mem.stringAt(f.addr), e);
        assert ("'" + e + "'")[1..|e| + 1] == e;
    }
  }

  // --- Bindings ---------------------------------------------------------------------

  function Columns(fields: seq<ModelField>): seq<string> {
    seq(|fields|, i requires 0 <= i < |fields| => fields[i].column)
  }

  ghost predicate Distinct(fields: seq<ModelField>) {
    forall i, j :: 0 <= i < j < |fields| ==> fields[i].column != fields[j].column
  }

  function Bound(fields: seq<ModelField>, column: string): Option<ModelField> {
    if fields == [] then None
    else if fields[0].column == column then Some(fields[0])
    else Bound(fields[1..], column)
  }

  lemma {:induction false} BoundAt(fields: seq<ModelField>, i: nat)
    requires Distinct(fields) && i < |fields|
    ensures Bound(fields, fields[i].column) == Some(fields[i])
  {
    if i == 0 {
    } else {
      BoundAt(fields[1..], i - 1);
    }
  }

  lemma {:induction false} Unbound(fields: seq<ModelField>, column: string)
    requires column !in Columns(fields)
    ensures Bound(fields, column) == None
  {
    if fields == [] {
    } else {
      assert Columns(fields)[0] == fields[0].column;
      assert Columns(fields)[1..] == Columns(fields[1..]);
      Unbound(fields[1..], column);
    }
  }

  /** The non-key columns with their values, in binding order. */
  function Settable(fields: seq<ModelField>, values: seq<string>, key: string): (r: seq<(string, string)>)
    requires |fields| == |values|
    ensures forall p :: p in r ==> p.0 != key
    ensures forall i :: 0 <= i < |fields| && fields[i].column != key ==> (fields[i].column, values[i]) in r
    ensures forall p :: p in r ==> exists i :: 0 <= i < |fields| && p == (fields[i].column, values[i])
  {
    if fields == [] then []
    else
      var rest := Settable(fields[1..], values[1..], key);
      if fields[0].column == key then rest else [(fields[0].column, values[0])] + rest
  }

  /** What an operation says, or nothing when it cannot be built. */
  function StatementFor(op: ModelOp, table: string, key: string, fields: seq<ModelField>,
                        values: seq<string>, keyValue: string): Option<Statement>
    requires |fields| == |values|
  {
    match op
    case FindOp => if key == "" || fields == [] then None else Some(Find(table, Columns(fields), key, keyValue))
    case InsertOp => if fields == [] then None else Some(Insert(table, Columns(fields), values))
    case UpdateOp =>
      if key == "" || Settable(fields, values, key) == [] then None
      else Some(Update(table, Settable(fields, values, key), key, keyValue))
    case DeleteOp => if key == "" then None else Some(Delete(table, key, keyValue))
  }

  function Text(s: Option<Statement>): string {
    if s.Some? then Render(s.value) else ""
  }

  function Literals(fields: seq<ModelField>, mem: Memory, esc: string -> string): seq<string> {
    seq(|fields|, i requires 0 <= i < |fields| => FieldLiteral(fields[i], mem, esc))
  }

  function KeyLiteral(fields: seq<ModelField>, key: string, mem: Memory, esc: string -> string): string {
    if key != "" && Bound(fields, key).Some? then FieldLiteral(Bound(fields, key).value, mem, esc) else "NULL"
  }

  function ModelStatement(op: ModelOp, table: string, key: string, fields: seq<ModelField>,
                          mem: Memory, esc: string -> string): Option<Statement> {
    StatementFor(op, table, key, fields, Literals(fields, mem, esc), KeyLiteral(fields, key, mem, esc))
  }

  /** The central promise of the model layer: for every table, key, set of columns and bound
      values, the SQL of an operation is one statement without placeholders that ends
      outside every quote and comment, and it reads back as exactly that operation. */
  lemma ModelSqlIsSafe(op: ModelOp, table: string, key: string, fields: seq<ModelField>,
                       mem: Memory, esc: string -> string)
    requires Escapes(esc) && PrintsFloats(mem)
    requires ModelStatement(op, table, key, fields, mem, esc).Some?
    ensures var s := ModelStatement(op, table, key, fields, mem, esc);
            && Run(Code, Text(s)) == Code && CodeText(Text(s)) == Shape(s.value)
            && !IsMulti(Text(s)) && Placeholders(Text(s)) == 0 && Parse(Text(s)) == s
  {
    var values := Literals(fields, mem, esc);
    var s := ModelStatement(op, table, key, fields, mem, esc).value;
    forall i | 0 <= i < |fields| ensures IsLiteral(values[i]) {
      FieldLiteralIsLiteral(fields[i], mem, esc);
    }
    KeyLiteralIsLiteral(fields, key, mem, esc);
    if op == UpdateOp {
      forall i | 0 <= i < |s.sets| ensures IsLiteral(s.sets[i].1) {
        assert s.sets[i] in s.sets;
      }
    }
    GeneratedSqlIsOneStatement(s);
    RenderParses(s);
  }

  // --- What the SQL means --------------------------------------------------------------------

  /** Whether there is SQL for an operation at all. */
  ghost predicate Buildable(op: ModelOp, key: string, fields: seq<ModelField>) {
    match op
    case FindOp => key != "" && fields != []
    case InsertOp => fields != []
    case UpdateOp => key != "" && exists i :: 0 <= i < |fields| && fields[i].column != key
    case DeleteOp => key != ""
  }

  /** The value compared with the key: that of the first field bound to it, or NULL. */
  ghost predicate KeyDenotes(lit: string, key: string, fields: seq<ModelField>, mem: Memory) {
    if fields == [] then lit == "NULL"
    else if fields[0].column == key then Denotes(lit, fields[0], mem)
    else KeyDenotes(lit, key, fields[1..], mem)
  }

  /** The assignments of the fields but the key's, in order. */
  ghost predicate SetsDenote(sets: seq<(string, string)>, key: string, fields: seq<ModelField>, mem: Memory)
    decreases fields
  {
    if fields == [] then sets == []
    else if fields[0].column == key then SetsDenote(sets, key, fields[1..], mem)
    else
      && sets != [] && sets[0].0 == fields[0].column && Denotes(sets[0].1, fields[0], mem)
      && SetsDenote(sets[1..], key, fields[1..], mem)
  }

  ghost predicate NamesColumns(columns: seq<string>, fields: seq<ModelField>) {
    |columns| == |fields| && forall i :: 0 <= i < |fields| ==> columns[i] == fields[i].column
  }

  /** What the statement of an operation on a model has to say. */
  ghost predicate Means(s: Statement, op: ModelOp, table: string, key: string, fields: seq<ModelField>, mem: Memory) {
    match op
    case FindOp =>
      && s.Find? && s.table == table && NamesColumns(s.columns, fields)
      && s.key == key && KeyDenotes(s.keyValue, key, fields, mem)
    case InsertOp =>
      && s.Insert? && s.table == table && NamesColumns(s.columns, fields)
      && |s.values| == |fields| && forall i :: 0 <= i < |fields| ==> Denotes(s.values[i], fields[i], mem)
    case UpdateOp =>
      && s.Update? && s.table == table && SetsDenote(s.sets, key, fields, mem)
      && s.key == key && KeyDenotes(s.keyValue, key, fields, mem)
    case DeleteOp => s.Delete? && s.table == table && s.key == key && KeyDenotes(s.keyValue, key, fields, mem)
  }

  lemma {:induction false} KeyLiteralDenotes(key: string, all: seq<ModelField>, mem: Memory, esc: string -> string)
    requires Escapes(esc) && PrintsFloats(mem) && key != ""
    ensures KeyDenotes(KeyLiteral(all, key, mem, esc), key, all, mem)
    decreases all
  {
    if all == [] {
    } else if all[0].column == key {
      FieldLiteralIsLiteral(all[0], mem, esc);
    } else {
      KeyLiteralDenotes(key, all[1..], mem, esc);
    }
  }

  lemma {:induction false} SettableDenotes(key: string, fields: seq<ModelField>, values: seq<string>, mem: Memory)
    requires |values| == |fields| && forall i :: 0 <= i < |fields| ==> Denotes(values[i], fields[i], mem)
    ensures SetsDenote(Settable(fields, values, key), key, fields, mem)
    ensures Settable(fields, values, key) == [] <==> forall i :: 0 <= i < |fields| ==> fields[i].column == key
    decreases fields
  {
    if fields == [] {
    } else {
      assert forall i :: 0 <= i < |fields| - 1 ==> fields[1..][i] == fields[i + 1] && values[1..][i] == values[i + 1];
      SettableDenotes(key, fields[1..], values[1..], mem);
      assert forall i :: 1 <= i < |fields| ==> fields[i] == fields[1..][i - 1];
    }
  }

  /** There is SQL exactly when the operation can be built, and it says what the bindings say. */
  lemma ModelStatementMeans(op: ModelOp, table: string, key: string, fields: seq<ModelField>,
                            mem: Memory, esc: string -> string)
    requires Escapes(esc) && PrintsFloats(mem)
    ensures var s := ModelStatement(op, table, key, fields, mem, esc);
            (s.Some? <==> Buildable(op, key, fields)) && (s.Some? ==> Means(s.value, op, table, key, fields, mem))
  {
    var values := Literals(fields, mem, esc);
    forall i | 0 <= i < |fields| ensures Denotes(values[i], fields[i], mem) {
      FieldLiteralIsLiteral(fields[i], mem, esc);
    }
    SettableDenotes(key, fields, values, mem);
    if key != "" {
      KeyLiteralDenotes(key, fields, mem, esc);
    }
  }

  lemma KeyLiteralIsLiteral(fields: seq<ModelField>, key: string, mem: Memory, esc: string -> string)
    requires Escapes(esc) && PrintsFloats(mem)
    ensures IsLiteral(KeyLiteral(fields, key, mem, esc))
  {
    if key != "" && Bound(fields, key).Some? {
      FieldLiteralIsLiteral(Bound(fields, key).value, mem, esc);
    } else {
      assert Unsigned("NULL");
      NumberIsLiteral("NULL");
    }
  }

  // --- Loops that append ----------------------------------------------------------------

  /** What a loop that has written the first `i` items of a list has still to write. */
  function Remaining(items: seq<string>, i: nat): string
    requires i <= |items|
  {
    if i == 0 then Join(items) else if i < |items| then ", " + Join(items[i..]) else ""
  }

  lemma NextItem(items: seq<string>, i: nat)
    requires i < |items|
    ensures Remaining(items, i) == (if i > 0 then ", " else "") + (items[i] + Remaining(items, i + 1))
  {
    assert items[i..][1..] == items[i + 1..];
  }

  lemma Written(text: string, items: seq<string>, i: nat, whole: string)
    requires i < |items| && text + Remaining(items, i) == whole
    ensures text + (if i > 0 then ", " else "") + items[i] + Remaining(items, i + 1) == whole
  {
    NextItem(items, i);
    Reassociate(text, if i > 0 then ", " else "", items[i] + Remaining(items, i + 1));
    Reassociate(text + (if i > 0 then ", " else ""), items[i], Remaining(items, i + 1));
  }

  /** Backtick-quotes an identifier, doubling the backticks in it. */
  method Quote(s: string) returns (out: string)
    ensures out == Ident(s)
  {
    out := "`";
    var i := 0;
    while i < |s|
      invariant i <= |s| && out + Doubled(s[i..]) == "`" + Doubled(s)
    {
      Reassociate(out, if s[i] == '`' then "``" else [s[i]], Doubled(s[i + 1..]));
      assert s[i..][1..] == s[i + 1..];
      if s[i] == '`' {
        out := out + "``";
      } else {
        out := out + [s[i]];
      }
      i := i + 1;
    }
    assert out + "" == out;
    out := out + "`";
  }

  class Model {
    const connectionHandle: int
    const table: string
    var key: string
    var fields: seq<ModelField>

    /** No column is bound twice. */
    ghost predicate Valid()
      reads this
    {
      Distinct(fields)
    }

    constructor (connectionHandle: int, table: string)
      ensures Valid() && this.connectionHandle == connectionHandle && this.table == table && key == "" && fields == []
    {
      this.connectionHandle := connectionHandle;
      this.table := table;
      key := "";
      fields := [];
    }

    method SetKey(column: string)
      requires Valid()
      modifies this`key
      ensures Valid() && key == column
    {
      key := column;
    }

    /** Rebinds a column in place, or adds it behind the others. */
    method UpsertField(column: string, ty: FieldType, addr: nat, maxlen: int)
      requires Valid()
      modifies this`fields
      ensures Valid()
      ensures Bound(fields, column) == Some(ModelField(column, ty, addr, maxlen))
      ensures Columns(fields) == if column in Columns(old(fields)) then Columns(old(fields))
              else Columns(old(fields)) + [column]
      ensures forall i :: 0 <= i < |old(fields)| && old(fields)[i].column != column ==> fields[i] == old(fields)[i]
    {
      var f := ModelField(column, ty, addr, maxlen);
      var i := 0;
      while i < |fields|
        invariant i <= |fields| && fields == old(fields)
        invariant forall j :: 0 <= j < i ==> fields[j].column != column
      {
        if fields[i].column == column {
          assert Columns(fields)[i] == column;
          fields := fields[i := f];
          BoundAt(fields, i);
          return;
        }
        i := i + 1;
      }
      fields := fields + [f];
      BoundAt(fields, i);
    }

    /** Drops a column's binding; the others keep theirs and their order. */
    method Unbind(column: string) returns (found: bool)
      requires Valid()
      modifies this`fields
      ensures Valid() && found == (column in Columns(old(fields)))
      ensures !found ==> fields == old(fields)
      ensures found ==> exists i :: 0 <= i < |old(fields)| && old(fields)[i].column == column
                                    && fields == old(fields)[..i] + old(fields)[i + 1..]
      ensures Bound(fields, column) == None
    {
      var i := 0;
      while i < |fields|
        invariant i <= |fields| && fields == old(fields)
        invariant forall j :: 0 <= j < i ==> fields[j].column != column
      {
        if fields[i].column == column {
          assert Columns(fields)[i] == column;
          fields := fields[..i] + fields[i + 1..];
          Unbound(fields, column);
          return true;
        }
        i := i + 1;
      }
      Unbound(fields, column);
      found := false;
    }

    /** The binding of the key column, if the key is set and bound. */
    method KeyField() returns (f: Option<ModelField>)
      ensures f == if key == "" then None else Bound(fields, key)
    {
      if key == "" {
        return None;
      }
      var i := 0;
      while i < |fields|
        invariant i <= |fields| && Bound(fields, key) == Bound(fields[i..], key)
      {
        if fields[i].column == key {
          return Some(fields[i]);
        }
        assert fields[i..][1..] == fields[i + 1..];
        i := i + 1;
      }
      f := None;
    }

    method BuildFind(keyValue: string) returns (sql: string)
      ensures sql == if key == "" || fields == [] then "" else Render(Find(table, Columns(fields), key, keyValue))
    {
      if key == "" || |fields| == 0 {
        return "";
      }
      sql := "SELECT ";
      ghost var items := Idents(Columns(fields));
      var i := 0;
      while i < |fields|
        invariant i <= |fields| && sql + Remaining(items, i) == "SELECT " + Join(items)
      {
        Written(sql, items, i, "SELECT " + Join(items));
        if i > 0 {
          sql := sql + ", ";
        } else {
          assert sql + "" == sql;
        }
        var name := Quote(fields[i].column);
        sql := sql + name;
        i := i + 1;
      }
      assert sql + "" == sql;
      var t := Quote(table);
      var k := Quote(key);
      sql := sql + " FROM " + t + " WHERE " + k + " = " + keyValue + " LIMIT 1";
    }

    method BuildInsert(values: seq<string>) returns (sql: string)
      ensures sql == if fields == [] || |values| != |fields| then "" else Render(Insert(table, Columns(fields), values))
    {
      if |fields| == 0 || |values| != |fields| {
        return "";
      }
      var cols, vals := "", "";
      ghost var items := Idents(Columns(fields));
      assert "" + Join(items) == Join(items) && "" + Join(values) == Join(values);
      var i := 0;
      while i < |fields|
        invariant i <= |fields| && cols + Remaining(items, i) == Join(items)
                  && vals + Remaining(values, i) == Join(values)
      {
        Written(cols, items, i, Join(items));
        Written(vals, values, i, Join(values));
        if i > 0 {
          cols := cols + ", ";
          vals := vals + ", ";
        } else {
          assert cols + "" == cols && vals + "" == vals;
        }
        var name := Quote(fields[i].column);
        cols := cols + name;
        vals := vals + values[i];
        i := i + 1;
      }
      assert cols + "" == cols && vals + "" == vals;
      var t := Quote(table);
      sql := "INSERT INTO " + t + " (" + cols + ") VALUES (" + vals + ")";
    }

    /** The key column is never in the SET list; without any other column there is no update. */
    method BuildUpdate(values: seq<string>, keyValue: string) returns (sql: string)
      ensures sql == if key == "" || |values| != |fields| || Settable(fields, values, key) == [] then ""
                     else Render(Update(table, Settable(fields, values, key), key, keyValue))
    {
      if key == "" || |fields| == 0 || |values| != |fields| {
        return "";
      }
      ghost var pairs := Settable(fields, values, key);
      ghost var items := Assigns(pairs);
      var sets := "";
      var first := true;
      assert "" + Join(items) == Join(items);
      var i := 0;
      ghost var j := 0;
      while i < |fields|
        invariant i <= |fields| && j <= |pairs| && pairs[j..] == Settable(fields[i..], values[i..], key)
        invariant sets + Remaining(items, j) == Join(items)
        invariant first == (j == 0) && (sets == "") == (j == 0)
      {
        assert fields[i..][1..] == fields[i + 1..] && values[i..][1..] == values[i + 1..];
        if fields[i].column != key {
          assert pairs[j] == (fields[i].column, values[i]) && pairs[j..][1..] == pairs[j + 1..];
          Written(sets, items, j, Join(items));
          if !first {
            sets := sets + ", ";
          } else {
            assert sets + "" == sets;
          }
          first := false;
          var name := Quote(fields[i].column);
          sets := sets + (name + " = " + values[i]);
          j := j + 1;
        }
        i := i + 1;
      }
      assert sets + "" == sets && j == |pairs|;
      if sets == "" {
        return "";
      }
      var t := Quote(table);
      var k := Quote(key);
      sql := "UPDATE " + t + " SET " + sets + " WHERE " + k + " = " + keyValue;
    }

    method BuildDelete(keyValue: string) returns (sql: string)
      ensures sql == if key == "" then "" else Render(Delete(table, key, keyValue))
    {
      if key == "" {
        return "";
      }
      var t := Quote(table);
      var k := Quote(key);
      sql := "DELETE FROM " + t + " WHERE " + k + " = " + keyValue;
    }

    /** Renders the bound values and builds the SQL of one operation; "" when there is none. */
    method Sql(op: ModelOp, mem: Memory, esc: string -> string) returns (sql: string)
      requires Escapes(esc) && PrintsFloats(mem)
      ensures sql == Text(ModelStatement(op, table, key, fields, mem, esc))
      ensures sql != "" ==>
                Run(Code, sql) == Code && !IsMulti(sql) && Placeholders(sql) == 0
                && Parse(sql) == ModelStatement(op, table, key, fields, mem, esc)
      ensures sql != "" <==> Buildable(op, key, fields)
      ensures sql != "" ==> Parse(sql).Some? && Means(Parse(sql).value, op, table, key, fields, mem)
    {
      var vals: seq<string> := [];
      var i := 0;
      while i < |fields|
        invariant i <= |fields| && vals == Literals(fields, mem, esc)[..i]
      {
        vals := vals + [FieldLiteral(fields[i], mem, esc)];
        i := i + 1;
      }
      assert vals == Literals(fields, mem, esc);
      var keyLit := "NULL";
      var kf := KeyField();
      if kf.Some? {
        keyLit := FieldLiteral(kf.value, mem, esc);
      }
      match op {
        case FindOp => sql := BuildFind(keyLit);
        case InsertOp => sql := BuildInsert(vals);
        case UpdateOp => sql := BuildUpdate(vals, keyLit);
        case DeleteOp => sql := BuildDelete(keyLit);
      }
      SqlIsSafe(op, table, key, fields, mem, esc);
      ModelStatementMeans(op, table, key, fields, mem, esc);
    }
  }

  lemma SqlIsSafe(op: ModelOp, table: string, key: string, fields: seq<ModelField>,
                  mem: Memory, esc: string -> string)
    requires Escapes(esc) && PrintsFloats(mem)
    ensures var s := ModelStatement(op, table, key, fields, mem, esc);
            && (Text(s) != "" <==> s.Some?)
            && (Text(s) != "" ==>
              Run(Code, Text(s)) == Code && !IsMulti(Text(s)) && Placeholders(Text(s)) == 0 && Parse(Text(s)) == s)
  {
    if ModelStatement(op, table, key, fields, mem, esc).Some? {
      ModelSqlIsSafe(op, table, key, fields, mem, esc);
    }
  }
}
