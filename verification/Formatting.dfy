/** `mysql_format`: the script-side builder of query text, and when the text it builds is
    read by the scanners the same way whatever values the script supplies. */
module Formatting {
  import opened Options
  import opened SqlScan
  import opened Scanners
  import opened Statements
  import opened Parsing
  import opened Models

  /** One supplied value: the specifier decides whether it is read as a cell, a float (given
      here as its printed text) or a string. */
  datatype Arg = Arg(cell: int, float: string, text: string)

  type Escaper = Option<string -> string>

  /** Escaping through a connection; without one the value passes through unchanged. */
  function Via(conn: Escaper, v: string): string {
    if conn.Some? then conn.value(v) else v
  }

  predicate TakesValue(spec: char) {
    spec == 'd' || spec == 'i' || spec == 'f' || spec == 's' || spec == 'e' || spec == 'q'
  }

  function ValueText(spec: char, a: Arg, conn: Escaper): string {
    if spec == 'd' || spec == 'i' then IntText(a.cell)
    else if spec == 'f' then a.float
    else if spec == 's' then a.text
    else if spec == 'e' then Via(conn, a.text)
    else Ident(a.text)
  }

  /** The formatted text. A specifier without a value left, or an unknown one, stays as it
      is; a lone `%` at the end is dropped. */
  function FormatText(fmt: string, args: seq<Arg>, conn: Escaper): string
    decreases |fmt|
  {
    if fmt == "" then ""
    else if fmt[0] != '%' then [fmt[0]] + FormatText(fmt[1..], args, conn)
    else if |fmt| == 1 then ""
    else if fmt[1] == '%' then "%" + FormatText(fmt[2..], args, conn)
    else if TakesValue(fmt[1]) && args != [] then
      ValueText(fmt[1], args[0], conn) + FormatText(fmt[2..], args[1..], conn)
    else ['%', fmt[1]] + FormatText(fmt[2..], args, conn)
  }

  // --- What the text must say ----------------------------------------------------------------

  /** What a specifier has to make of its value: a number that reads back as the cell, the float
      as printed, the string as it is, escaped when there is a connection to escape it, or as
      an identifier that reads back as the name. */
  ghost predicate Yields(spec: char, a: Arg, conn: Escaper, t: string) {
    if spec == 'd' || spec == 'i' then ReadInt(t) == Some(a.cell)
    else if spec == 'f' then t == a.float
    else if spec == 's' then t == a.text
    else if spec == 'e' then if conn.Some? then EscapesTo(a.text, t) else t == a.text
    else forall rest :: (rest == "" || rest[0] != '`') ==> ReadIdent(t + rest) == Some((a.text, rest))
  }

  /** What a text has to be, to be made of a format and its values: the format's own characters,
      and in place of each specifier what it makes of the next value; `%%` stands for a percent
      sign, an unknown specifier or one without a value for itself, a last `%` for nothing. */
  ghost predicate Formats(fmt: string, args: seq<Arg>, conn: Escaper, text: string)
    decreases |fmt|
  {
    if fmt == "" || fmt == "%" then text == ""
    else if fmt[0] != '%' then text != "" && text[0] == fmt[0] && Formats(fmt[1..], args, conn, text[1..])
    else if fmt[1] == '%' then text != "" && text[0] == '%' && Formats(fmt[2..], args, conn, text[1..])
    else if fmt[1] in {'d', 'i', 'f', 's', 'e', 'q'} && args != [] then
      exists n :: 0 <= n <= |text| && Yields(fmt[1], args[0], conn, text[..n])
        && Formats(fmt[2..], args[1..], conn, text[n..])
    else |text| >= 2 && text[..2] == fmt[..2] && Formats(fmt[2..], args, conn, text[2..])
  }

  lemma ValueYields(spec: char, a: Arg, conn: Escaper)
    requires TakesValue(spec) && (conn.Some? ==> Escapes(conn.value))
    ensures Yields(spec, a, conn, ValueText(spec, a, conn))
  {
    IntBack(a.cell);
    forall rest | rest == "" || rest[0] != '`' ensures ReadIdent(Ident(a.text) + rest) == Some((a.text, rest)) {
      IdentBack(a.text, rest);
    }
  }

  lemma {:induction false} TextFormats(fmt: string, args: seq<Arg>, conn: Escaper)
    requires conn.Some? ==> Escapes(conn.value)
    ensures Formats(fmt, args, conn, FormatText(fmt, args, conn))
    decreases |fmt|
  {
    if fmt == "" || fmt == "%" {
    } else if fmt[0] != '%' {
      TextFormats(fmt[1..], args, conn);
      FirstFormats([fmt[0]], FormatText(fmt[1..], args, conn));
    } else if fmt[1] == '%' {
      TextFormats(fmt[2..], args, conn);
      FirstFormats("%", FormatText(fmt[2..], args, conn));
    } else if TakesValue(fmt[1]) && args != [] {
      TextFormats(fmt[2..], args[1..], conn);
      ValueYields(fmt[1], args[0], conn);
      FirstFormats(ValueText(fmt[1], args[0], conn), FormatText(fmt[2..], args[1..], conn));
    } else {
      TextFormats(fmt[2..], args, conn);
      FirstFormats(['%', fmt[1]], FormatText(fmt[2..], args, conn));
    }
  }

  lemma FirstFormats(first: string, rest: string)
    ensures (first + rest)[..|first|] == first && (first + rest)[|first|..] == rest
  {
  }

  /** The native's loop. */
  method Format(fmt: string, args: seq<Arg>, conn: Escaper) returns (out: string)
    ensures out == FormatText(fmt, args, conn)
    ensures (conn.Some? ==> Escapes(conn.value)) ==> Formats(fmt, args, conn, out)
  {
    if conn.Some? ==> Escapes(conn.value) {
      TextFormats(fmt, args, conn);
    }
    out := "";
    var next := 0;
    var i := 0;
    assert "" + FormatText(fmt, args, conn) == FormatText(fmt, args, conn);
    while i < |fmt|
      invariant i <= |fmt| && next <= |args|
      invariant out + FormatText(fmt[i..], args[next..], conn) == FormatText(fmt, args, conn)
    {
      ghost var f, a := fmt[i..], args[next..];
      assert f[1..] == fmt[i + 1..] && (|f| > 1 ==> f[1] == fmt[i + 1] && f[2..] == fmt[i + 2..]);
      if fmt[i] != '%' {
        Reassociate(out, [fmt[i]], FormatText(f[1..], a, conn));
        out := out + [fmt[i]];
        i := i + 1;
        continue;
      }
      if i + 1 >= |fmt| {
        assert out + "" == out;
        return;
      }
      i := i + 1;
      var spec := fmt[i];
      if spec != '%' && next >= |args| {
        Reassociate(out, ['%', spec], FormatText(f[2..], a, conn));
        out := out + ['%', spec];
      } else if spec == '%' {
        Reassociate(out, "%", FormatText(f[2..], a, conn));
        out := out + "%";
      } else if TakesValue(spec) {
        assert a[1..] == args[next + 1..];
        Reassociate(out, ValueText(spec, args[next], conn), FormatText(f[2..], a[1..], conn));
        out := out + ValueText(spec, args[next], conn);
        next := next + 1;
      } else {
        Reassociate(out, ['%', spec], FormatText(f[2..], a, conn));
        out := out + ['%', spec];
      }
      i := i + 1;
    }
    assert out + "" == out;
  }

  // --- What a guard and a placeholder count can still see ----------------------------------

  /** The scanners' findings so far: a separator seen, a second statement seen, placeholders. */
  datatype Findings = Findings(separator: bool, multi: bool, marks: nat)

  const NOTHING := Findings(false, false, 0)

  function Find1(f: Findings, c: char): Findings {
    if c == ';' then f.(separator := true)
    else f.(multi := f.multi || (f.separator && !IsSpace(c)), marks := f.marks + if c == '?' then 1 else 0)
  }

  function FindAll(f: Findings, code: string): Findings
    decreases code
  {
    if code == "" then f else FindAll(Find1(f, code[0]), code[1..])
  }

  lemma {:induction false} FindConcat(f: Findings, a: string, b: string)
    ensures FindAll(f, a + b) == FindAll(FindAll(f, a), b)
    decreases a
  {
    if a == "" {
      assert a + b == b;
    } else {
      assert (a + b)[1..] == a[1..] + b;
      FindConcat(Find1(f, a[0]), a[1..], b);
    }
  }

  /** The findings on a code text are exactly what the two scanners report on it. */
  lemma {:induction false} FindingsAreVerdicts(code: string)
    ensures var f := FindAll(NOTHING, code);
            (f.separator <==> ';' in code) && (f.multi <==> Stacked(code)) && f.marks == Count('?', code)
    decreases |code|
  {
    if code == "" {
    } else {
      var init, last := code[..|code| - 1], code[|code| - 1];
      assert code == init + [last];
      FindingsAreVerdicts(init);
      FindConcat(NOTHING, init, [last]);
      assert FindAll(FindAll(NOTHING, init), [last]) == Find1(FindAll(NOTHING, init), last) by {
        assert [last][1..] == "";
      }
      StackedByOne(init, last);
      CountByOne('?', init, last);
    }
  }

  /** What scanning `s` from state `st` with findings `f` leads to. */
  function After(st: Lex, f: Findings, s: string): (Lex, Findings) {
    (Run(st, s), FindAll(f, Out(st, s)))
  }

  lemma AfterConcat(st: Lex, f: Findings, a: string, b: string)
    ensures After(st, f, a + b) == After(After(st, f, a).0, After(st, f, a).1, b)
  {
    RunConcat(st, a, b);
    OutConcat(st, a, b);
    FindConcat(f, Out(st, a), Out(Run(st, a), b));
  }

  // --- Formats that can be judged without their values ----------------------------------------

  predicate InCode(st: Lex) {
    st == Code || st == Dash || st == Slash
  }

  /** Where a printed number may stand: anywhere but right after a lone dash in code, where
      its sign would open a comment. */
  function AfterNumber(st: Lex): Lex
    requires st != Dash
  {
    match st
    case Slash => Code
    case Escaped(q) => Quoted(q)
    case BlockStar => Block
    case _ => st
  }

  /** Whether the value of `spec` may stand where the scanner is in state `st`: an escaped
      string inside quotes, a quoted identifier in code, a number not after a dash. */
  predicate Allowed(spec: char, st: Lex) {
    if spec == 'e' then st == Quoted('\'') || st == Quoted('"')
    else if spec == 'q' then InCode(st)
    else if spec == 's' then false
    else st != Dash
  }

  /** The state and findings after a value, whatever the value. */
  function AfterValue(spec: char, st: Lex, f: Findings): (Lex, Findings)
    requires Allowed(spec, st)
  {
    if spec == 'e' then (st, f)
    else if spec == 'q' then (Code, FindAll(f, Held(st)))
    else (AfterNumber(st), if InCode(st) then f.(multi := f.multi || f.separator) else f)
  }

  /** The state and findings after one literal character. */
  function AfterChar(st: Lex, f: Findings, c: char): (Lex, Findings) {
    (Step(st, c), FindAll(f, Emit(st, c)))
  }

  /** The state and findings at the end of the formatted text, from the format and the
      number of values alone; nothing when some value stands where it is not allowed. */
  function Predict(st: Lex, f: Findings, fmt: string, n: nat): Option<(Lex, Findings)>
    decreases |fmt|
  {
    if fmt == "" then Some((st, f))
    else
      var (t, g) := AfterChar(st, f, fmt[0]);
      if fmt[0] != '%' then Predict(t, g, fmt[1..], n)
      else if |fmt| == 1 then Some((st, f))
      else if fmt[1] == '%' then Predict(t, g, fmt[2..], n)
      else if TakesValue(fmt[1]) && n > 0 then
        if !Allowed(fmt[1], st) then None
        else Predict(AfterValue(fmt[1], st, f).0, AfterValue(fmt[1], st, f).1, fmt[2..], n - 1)
      else Predict(AfterChar(t, g, fmt[1]).0, AfterChar(t, g, fmt[1]).1, fmt[2..], n)
  }

  predicate Predictable(fmt: string, n: nat) {
    Predict(Code, NOTHING, fmt, n).Some?
  }

  // --- The prediction is right --------------------------------------------------------------

  lemma AfterOne(st: Lex, f: Findings, c: char, rest: string)
    ensures After(st, f, [c] + rest) == After(AfterChar(st, f, c).0, AfterChar(st, f, c).1, rest)
  {
    AfterConcat(st, f, [c], rest);
    assert [c][0] == c && [c][1..] == "";
    assert Run(st, [c]) == Run(Step(st, c), "") == Step(st, c);
    assert Out(st, [c]) == Emit(st, c) + "" == Emit(st, c);
  }

  lemma {:induction false} FindNumber(f: Findings, s: string)
    requires s != "" && forall i :: 0 <= i < |s| ==> !IsSpace(s[i]) && s[i] != ';' && s[i] != '?'
    ensures FindAll(f, s) == f.(multi := f.multi || f.separator)
    decreases s
  {
    if |s| > 1 {
      FindNumber(Find1(f, s[0]), s[1..]);
    } else {
      assert s[1..] == "";
    }
  }

  /** Outside code, a number's characters change no state but those that one more character
      settles, and show nothing. */
  lemma {:induction false} NumberHidden(st: Lex, s: string)
    requires s != "" && (forall i :: 0 <= i < |s| ==> NumberChar(s[i]) || s[i] == '-') && !InCode(st) && Proper(st)
    ensures Run(st, s) == AfterNumber(st) && Out(st, s) == ""
    decreases s
  {
    assert NumberChar(s[0]) || s[0] == '-';
    if |s| > 1 {
      assert forall i :: 0 <= i < |s[1..]| ==> s[1..][i] == s[i + 1] && (NumberChar(s[i + 1]) || s[i + 1] == '-');
      NumberHidden(Step(st, s[0]), s[1..]);
    } else {
      assert s[1..] == "";
    }
  }

  /** In code, a number shows as itself, after a slash still held back. */
  lemma NumberShown(st: Lex, s: string)
    requires NumberText(s) && (st == Code || st == Slash)
    ensures Run(st, s) == Code && Out(st, s) == Held(st) + s
  {
    NumberIsLiteral(s);
    assert "" + s == s;
    if st == Slash {
      AfterSlash(s[0]);
      Reassociate("/", Emit(Code, s[0]), Out(Step(Code, s[0]), s[1..]));
    }
  }

  lemma AfterSlash(c: char)
    requires c == '-' || NumberChar(c)
    ensures Step(Slash, c) == Step(Code, c) && Emit(Slash, c) == "/" + Emit(Code, c)
  {
  }

  lemma NumberAfter(st: Lex, f: Findings, s: string)
    requires NumberText(s) && st != Dash && Proper(st)
    ensures After(st, f, s) == (AfterNumber(st), if InCode(st) then f.(multi := f.multi || f.separator) else f)
  {
    assert forall i :: 0 <= i < |s| ==> NumberChar(s[i]) || s[i] == '-' by {
      if !Unsigned(s) {
        assert forall i :: 0 < i < |s| ==> s[i] == s[1..][i - 1];
      }
    }
    if InCode(st) {
      NumberShown(st, s);
      FindNumber(f, Held(st) + s);
    } else {
      NumberHidden(st, s);
    }
  }

  /** An allowed value leads where the format alone says, whatever the value. */
  lemma ValueAfter(spec: char, a: Arg, esc: string -> string, st: Lex, f: Findings)
    requires TakesValue(spec) && Allowed(spec, st) && Proper(st)
    requires Escapes(esc) && NumberText(a.float)
    ensures After(st, f, ValueText(spec, a, Some(esc))) == AfterValue(spec, st, f)
  {
    if spec == 'e' {
      EscapedValueStaysQuoted(a.text, esc(a.text), st.quote);
    } else if spec == 'q' {
      IdentAfter(st, f, a.text);
    } else if spec == 'f' {
      NumberAfter(st, f, a.float);
    } else {
      NumberAfter(st, f, IntText(a.cell));
    }
  }

  lemma IdentAfter(st: Lex, f: Findings, name: string)
    requires InCode(st)
    ensures After(st, f, Ident(name)) == (Code, FindAll(f, Held(st)))
  {
    var t := Doubled(name) + "`";
    IdentReads(name);
    assert Ident(name) == ['`'] + t;
    AfterOne(st, f, '`', t);
    assert Emit(Code, '`') == "" && Emit(st, '`') == Held(st) + "" == Held(st);
    assert Out(Code, Ident(name)) == "" + Out(Quoted('`'), t) && Out(Quoted('`'), t) == "";
    assert Run(Code, Ident(name)) == Run(Quoted('`'), t);
  }

  /** The prediction made from the format alone is what scanning the formatted text finds:
      for all values, the scanner ends in the predicted state with the predicted findings. */
  lemma {:induction false} PredictionHolds(st: Lex, f: Findings, fmt: string, args: seq<Arg>, esc: string -> string)
    requires Proper(st) && Escapes(esc) && forall i :: 0 <= i < |args| ==> NumberText(args[i].float)
    requires Predict(st, f, fmt, |args|).Some?
    ensures After(st, f, FormatText(fmt, args, Some(esc))) == Predict(st, f, fmt, |args|).value
    decreases |fmt|, 1
  {
    if fmt == "" || fmt == "%" {
      assert Out(st, "") == "" && Run(st, "") == st && FindAll(f, "") == f;
    } else if fmt[0] != '%' {
      var (t, g) := AfterChar(st, f, fmt[0]);
      PredictionHolds(t, g, fmt[1..], args, esc);
      AfterOne(st, f, fmt[0], FormatText(fmt[1..], args, Some(esc)));
    } else if fmt[1] != '%' && TakesValue(fmt[1]) && args != [] {
      PredictValue(st, f, fmt, args, esc);
    } else {
      PredictLiteral(st, f, fmt, args, esc);
    }
  }

  lemma PredictValue(st: Lex, f: Findings, fmt: string, args: seq<Arg>, esc: string -> string)
    requires Proper(st) && Escapes(esc) && forall i :: 0 <= i < |args| ==> NumberText(args[i].float)
    requires Predict(st, f, fmt, |args|).Some?
    requires |fmt| > 1 && fmt[0] == '%' && fmt[1] != '%' && TakesValue(fmt[1]) && args != []
    ensures After(st, f, FormatText(fmt, args, Some(esc))) == Predict(st, f, fmt, |args|).value
    decreases |fmt|, 0
  {
    ValueAfter(fmt[1], args[0], esc, st, f);
    var (t, g) := AfterValue(fmt[1], st, f);
    PredictionHolds(t, g, fmt[2..], args[1..], esc);
    AfterConcat(st, f, ValueText(fmt[1], args[0], Some(esc)), FormatText(fmt[2..], args[1..], Some(esc)));
  }

  lemma PredictLiteral(st: Lex, f: Findings, fmt: string, args: seq<Arg>, esc: string -> string)
    requires Proper(st) && Escapes(esc) && forall i :: 0 <= i < |args| ==> NumberText(args[i].float)
    requires Predict(st, f, fmt, |args|).Some?
    requires |fmt| > 1 && fmt[0] == '%' && (fmt[1] == '%' || !TakesValue(fmt[1]) || args == [])
    ensures After(st, f, FormatText(fmt, args, Some(esc))) == Predict(st, f, fmt, |args|).value
    decreases |fmt|, 0
  {
    var rest := FormatText(fmt[2..], args, Some(esc));
    var (t, g) := AfterChar(st, f, '%');
    if fmt[1] == '%' {
      PredictionHolds(t, g, fmt[2..], args, esc);
      AfterOne(st, f, '%', rest);
    } else {
      var (u, h) := AfterChar(t, g, fmt[1]);
      PredictionHolds(u, h, fmt[2..], args, esc);
      AfterTwo(st, f, '%', fmt[1], rest);
    }
  }

  lemma AfterTwo(st: Lex, f: Findings, c: char, d: char, rest: string)
    ensures var (t, g) := AfterChar(st, f, c);
            After(st, f, [c, d] + rest) == After(AfterChar(t, g, d).0, AfterChar(t, g, d).1, rest)
  {
    var (t, g) := AfterChar(st, f, c);
    assert [c, d] + rest == [c] + ([d] + rest);
    AfterOne(st, f, c, [d] + rest);
    AfterOne(t, g, d, rest);
  }

  /** Value independence: a predictable format gives text on which the multi-statement guard
      and the placeholder count answer the same for all values, and which ends in the same
      scanner state; the answers can be read off the format. */
  lemma FormatIsValueIndependent(fmt: string, args: seq<Arg>, esc: string -> string)
    requires Escapes(esc) && forall i :: 0 <= i < |args| ==> NumberText(args[i].float)
    requires Predictable(fmt, |args|)
    ensures var (st, f) := Predict(Code, NOTHING, fmt, |args|).value;
            var text := FormatText(fmt, args, Some(esc));
            && Run(Code, text) == st
            && (IsMulti(text) <==> FindAll(f, Held(st)).multi)
            && Placeholders(text) == FindAll(f, Held(st)).marks
  {
    var text := FormatText(fmt, args, Some(esc));
    PredictionHolds(Code, NOTHING, fmt, args, esc);
    FindConcat(NOTHING, Out(Code, text), Held(Run(Code, text)));
    FindingsAreVerdicts(CodeText(text));
  }

  // --- Where it does not hold ---------------------------------------------------------------

  /** Inside single or double quotes, in any format, a value of `%e` leaves the scanner where it
      is, whatever the value, if and only if the handle names a connection: for an unknown
      handle the native inserts the value as it is. */
  lemma QuotedValueNeedsConnection(conn: Escaper, st: Lex)
    requires conn.Some? ==> Escapes(conn.value)
    requires st == Quoted('\'') || st == Quoted('"')
    ensures conn.Some? <==> forall a: Arg :: Run(st, ValueText('e', a, conn)) == st
  {
    if conn.Some? {
      forall a: Arg ensures Run(st, ValueText('e', a, conn)) == st {
        EscapedValueStaysQuoted(a.text, conn.value(a.text), st.quote);
      }
    } else {
      var a := Arg(0, "0", [st.quote]);
      assert [st.quote][1..] == "";
      assert Run(st, ValueText('e', a, conn)) == Run(Code, "") == Code;
    }
  }

  /** So `'%e'` keeps every value inside its quotes exactly when the handle names one. */
  lemma QuotedFormatNeedsConnection(conn: Escaper)
    requires conn.Some? ==> Escapes(conn.value)
    ensures conn.Some? <==> forall a: Arg :: Run(Code, FormatText("'%e'", [a], conn)) == Code
  {
    QuotedValueNeedsConnection(conn, Quoted('\''));
    forall a: Arg ensures Run(Code, FormatText("'%e'", [a], conn))
                          == Run(Run(Quoted('\''), ValueText('e', a, conn)), "'") {
      QuotedValue(a, conn);
      QuotesAround(Via(conn, a.text));
    }
    if conn.None? {
      var a := Arg(0, "0", "'");
      assert "'"[1..] == "";
      assert Run(Quoted('\''), ValueText('e', a, conn)) == Code && Run(Code, "'") == Quoted('\'');
    } else {
      assert "'"[1..] == "" && Run(Quoted('\''), "'") == Code;
    }
  }

  lemma QuotesAround(v: string)
    ensures Run(Code, "'" + v + "'") == Run(Run(Quoted('\''), v), "'")
  {
    assert "'"[1..] == "" && Run(Code, "'") == Quoted('\'');
    RunConcat(Code, "'" + v, "'");
    RunConcat(Code, "'", v);
  }

  lemma QuotedValue(a: Arg, conn: Escaper)
    ensures FormatText("'%e'", [a], conn) == "'" + Via(conn, a.text) + "'"
  {
    assert "'%e'"[1..] == "%e'" && "%e'"[2..] == "'" && "'"[1..] == "";
    assert [a][1..] == [];
    assert FormatText("'", [], conn) == "'" + "" == "'";
    assert FormatText("%e'", [a], conn) == Via(conn, a.text) + "'";
    assert "'" + (Via(conn, a.text) + "'") == "'" + Via(conn, a.text) + "'";
  }

  /** Why a number is not allowed after a lone dash: the sign of a negative one completes a
      comment opener. */
  lemma SignOpensComment()
    ensures FormatText("-%d", [Arg(-1, "0", "")], None) == "--1" && Run(Code, "--1") == Line
    ensures FormatText("-%d", [Arg(1, "0", "")], None) == "-1" && Run(Code, "-1") == Code
  {
    assert "-%d"[1..] == "%d" && "%d"[2..] == "";
    assert Digits(1) == "1" && IntText(-1) == "-1" && IntText(1) == "1";
    forall v: int ensures FormatText("-%d", [Arg(v, "0", "")], None) == "-" + (IntText(v) + "") {
      assert FormatText("%d", [Arg(v, "0", "")], None) == IntText(v) + FormatText("", [Arg(v, "0", "")][1..], None);
    }
    assert "-" + ("-1" + "") == "--1" && "-" + ("1" + "") == "-1";
    assert "--1"[1..] == "-1" && "-1"[1..] == "1" && "1"[1..] == "";
    assert Run(Code, "--1") == Run(Dash, "-1") == Run(Line, "1") == Line;
    assert Run(Code, "-1") == Run(Dash, "1") == Code;
  }
}
