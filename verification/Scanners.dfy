/** The repository's two SQL scanners, in their own form: loops with one character of
    lookahead. Both are proved against the automaton of `SqlScan`, and both are shown to
    visit the same positions in the same states. */
module Scanners {
  import opened SqlScan

  // --- What both loops keep -------------------------------------------------------

  /** At the head of an iteration: `code` is the code-level text seen so far and `trace` the
      visits so far. */
  ghost predicate AtHead(sql: string, i: nat, mode: Lex, code: string, trace: seq<(nat, Lex)>) {
    && Settled(mode)
    && code + Ahead(mode, sql, i) == Ahead(Code, sql, 0)
    && trace + VisitsFrom(mode, sql, i) == Visits(sql)
  }

  lemma Advance(sql: string, i: nat, mode: Lex, code: string, trace: seq<(nat, Lex)>)
    requires AtHead(sql, i, mode, code, trace) && i < |sql|
    ensures var (m, k) := Next(mode, sql[i], At(sql, i + 1));
            AtHead(sql, i + k, m, Extend(code, mode, sql[i], At(sql, i + 1)), trace + [(i, mode)])
  {
    var c, n := sql[i], At(sql, i + 1);
    var (m, k) := Next(mode, c, n);
    Reassociate(code, if Seen(mode, c, n) then [c] else "", Ahead(m, sql, i + k));
    assert code + "" == code;
    assert trace + ([(i, mode)] + VisitsFrom(m, sql, i + k)) == trace + [(i, mode)] + VisitsFrom(m, sql, i + k);
  }

  function Extend(code: string, mode: Lex, c: char, n: char): string
    requires Settled(mode)
  {
    if Seen(mode, c, n) then code + [c] else code
  }

  lemma WholeScan(sql: string)
    ensures Ahead(Code, sql, 0) == CodeText(sql)
  {
    LookaheadAgrees(Code, sql, 0);
    assert Drop(sql, 0) == sql;
  }

  /** More code after a stacked statement leaves it stacked; one more character decides. */
  lemma StackedGrows(code: string, more: string)
    requires Stacked(code)
    ensures Stacked(code + more)
  {
    var i, j :| 0 <= i < j < |code| && code[i] == ';' && code[j] != ';' && !IsSpace(code[j]);
    assert (code + more)[i] == ';' && (code + more)[j] == code[j];
  }

  lemma StackedByOne(code: string, c: char)
    ensures Stacked(code + [c]) <==> Stacked(code) || (';' in code && c != ';' && !IsSpace(c))
  {
    var longer := code + [c];
    if Stacked(longer) && !Stacked(code) {
      var i, j :| 0 <= i < j < |longer| && longer[i] == ';' && longer[j] != ';' && !IsSpace(longer[j]);
      assert code[i] == ';';
    }
    if Stacked(code) {
      StackedGrows(code, [c]);
    } else if ';' in code && c != ';' && !IsSpace(c) {
      var i :| 0 <= i < |code| && code[i] == ';';
      assert longer[i] == ';' && longer[|code|] == c;
    }
  }

  lemma {:induction false} CountConcat(c: char, a: string, b: string)
    ensures Count(c, a + b) == Count(c, a) + Count(c, b)
    decreases a
  {
    if a == "" {
      assert a + b == b;
    } else {
      assert (a + b)[1..] == a[1..] + b;
      CountConcat(c, a[1..], b);
    }
  }

  // --- isMultiStatement -------------------------------------------------------------

  datatype ScanState = Normal | SQuote | DQuote | BQuote | LineComment | BlockComment

  function AsLex(state: ScanState): Lex {
    match state
    case Normal => Code
    case SQuote => Quoted('\'')
    case DQuote => Quoted('"')
    case BQuote => Quoted('`')
    case LineComment => Line
    case BlockComment => Block
  }

  /** Reports a `;` in code that more code follows. The trace is the states visited, as far
      as the scan went before it had its answer. */
  method IsMultiStatement(sql: string) returns (multi: bool, ghost trace: seq<(nat, Lex)>)
    ensures multi <==> IsMulti(sql)
    ensures trace <= Visits(sql) && (!multi ==> trace == Visits(sql))
  {
    var state := Normal;
    var sawSeparator := false;
    var i := 0;
    ghost var code := "";
    trace := [];
    WholeScan(sql);
    while i < |sql|
      invariant AtHead(sql, i, AsLex(state), code, trace)
      invariant sawSeparator <==> ';' in code
      invariant !Stacked(code)
      decreases |sql| - i
    {
      var c := sql[i];
      var n := At(sql, i + 1);
      Advance(sql, i, AsLex(state), code, trace);
      StackedByOne(code, c);
      trace := trace + [(i, AsLex(state))];
      code := Extend(code, AsLex(state), c, n);
      match state {
        case Normal =>
          if c == '\'' {
            state := SQuote;
          } else if c == '"' {
            state := DQuote;
          } else if c == '`' {
            state := BQuote;
          } else if c == '-' && n == '-' {
            state := LineComment;
            i := i + 1;
          } else if c == '#' {
            state := LineComment;
          } else if c == '/' && n == '*' {
            state := BlockComment;
            i := i + 1;
          } else if c == ';' {
            sawSeparator := true;
          } else if sawSeparator && !IsSpace(c) {
            StackedGrows(code, Ahead(Code, sql, i + 1));
            return true, trace;
          }
        case SQuote =>
          if c == '\\' {
            i := i + 1;
          } else if c == '\'' {
            state := Normal;
          }
        case DQuote =>
          if c == '\\' {
            i := i + 1;
          } else if c == '"' {
            state := Normal;
          }
        case BQuote =>
          if c == '`' {
            state := Normal;
          }
        case LineComment =>
          if c == '\n' {
            state := Normal;
          }
        case BlockComment =>
          if c == '*' && n == '/' {
            state := Normal;
            i := i + 1;
          }
      }
      i := i + 1;
    }
    assert code + "" == code;
    multi := false;
  }

  // --- CountPlaceholders --------------------------------------------------------------

  function FlagsAsLex(quote: char, lineComment: bool, blockComment: bool): Lex {
    if lineComment then Line else if blockComment then Block else if quote != '\0' then Quoted(quote) else Code
  }

  lemma CountByOne(d: char, code: string, c: char)
    ensures Count(d, code + [c]) == Count(d, code) + (if c == d then 1 else 0)
  {
    CountConcat(d, code, [c]);
    assert Count(d, [c]) == if c == d then 1 else 0;
  }

  /** The number of `?` in code. It always scans to the end, and visits the very positions
      and states `IsMultiStatement` does. */
  method CountPlaceholders(sql: string) returns (count: nat, ghost trace: seq<(nat, Lex)>)
    ensures count == Placeholders(sql)
    ensures trace == Visits(sql)
  {
    count := 0;
    var quote := '\0';
    var lineComment, blockComment := false, false;
    var i := 0;
    ghost var code := "";
    trace := [];
    WholeScan(sql);
    while i < |sql|
      invariant AtHead(sql, i, FlagsAsLex(quote, lineComment, blockComment), code, trace)
      invariant quote == '\0' || IsQuote(quote)
      invariant (lineComment || blockComment ==> quote == '\0') && !(lineComment && blockComment)
      invariant count == Count('?', code)
      decreases |sql| - i
    {
      var c := sql[i];
      var n := At(sql, i + 1);
      ghost var mode := FlagsAsLex(quote, lineComment, blockComment);
      Advance(sql, i, mode, code, trace);
      CountByOne('?', code, c);
      code, trace := Extend(code, mode, c, n), trace + [(i, mode)];
      if lineComment {
        if c == '\n' {
          lineComment := false;
        }
      } else if blockComment {
        if c == '*' && n == '/' {
          blockComment := false;
          i := i + 1;
        }
      } else if quote != '\0' {
        if c == '\\' && quote != '`' {
          i := i + 1;
        } else if c == quote {
          quote := '\0';
        }
      } else if c == '-' && n == '-' {
        lineComment := true;
        i := i + 1;
      } else if c == '#' {
        lineComment := true;
      } else if c == '/' && n == '*' {
        blockComment := true;
        i := i + 1;
      } else if IsQuote(c) {
        quote := c;
      } else if c == '?' {
        count := count + 1;
      }
      i := i + 1;
    }
    assert code + "" == code;
  }
}
