/** The SQL lexical machine behind `MySQLComponent::isMultiStatement` and the
    placeholder counter of `PreparedStatement`.

    The reference definition is an automaton that reads one character at a time and
    never looks ahead: a `-` or `/` read in code is held back until the next character
    decides whether it opened a comment. The two scanners of the repository look one
    character ahead and skip characters instead; both are proved against it. */
module SqlScan {

  /** Where the reading head is. `Dash` and `Slash` are code with one undecided character. */
  datatype Lex =
    | Code | Dash | Slash
    | Quoted(quote: char) | Escaped(quote: char)
    | Line | Block | BlockStar

  predicate IsQuote(c: char) {
    c == '\'' || c == '"' || c == '`'
  }

  /** The state in which a character read at code level leaves the machine. */
  function Enter(c: char): Lex {
    if IsQuote(c) then Quoted(c)
    else if c == '-' then Dash
    else if c == '/' then Slash
    else if c == '#' then Line
    else Code
  }

  function Step(st: Lex, c: char): Lex {
    match st
    case Code => Enter(c)
    case Dash => if c == '-' then Line else Enter(c)
    case Slash => if c == '*' then Block else Enter(c)
    case Quoted(q) => if c == '\\' && q != '`' then Escaped(q) else if c == q then Code else st
    case Escaped(q) => Quoted(q)
    case Line => if c == '\n' then Code else Line
    case Block => if c == '*' then BlockStar else Block
    case BlockStar => if c == '/' then Code else if c == '*' then BlockStar else Block
  }

  /** Quotes are opened by quote characters only, and backslashes count inside single and double
      quotes only; every state reached from `Code` is so. */
  predicate Proper(st: Lex) {
    (st.Quoted? || st.Escaped? ==> IsQuote(st.quote)) && (st.Escaped? ==> st.quote != '`')
  }

  /** A character held back until its successor is known to leave it in code. */
  function Held(st: Lex): string {
    if st == Dash then "-" else if st == Slash then "/" else ""
  }

  /** The code-level characters settled by reading `c`. */
  function Emit(st: Lex, c: char): string {
    var own := if Enter(c) == Code then [c] else "";
    match st
    case Code => own
    case Dash => if c == '-' then "" else "-" + own
    case Slash => if c == '*' then "" else "/" + own
    case _ => ""
  }

  function Run(st: Lex, s: string): Lex
    decreases s
  {
    if s == "" then st else Run(Step(st, s[0]), s[1..])
  }

  function Out(st: Lex, s: string): string
    decreases s
  {
    if s == "" then "" else Emit(st, s[0]) + Out(Step(st, s[0]), s[1..])
  }

  /** Every code-level character still to come, when the machine is in `st` before `s`. */
  function Rest(st: Lex, s: string): string {
    Out(st, s) + Held(Run(st, s))
  }

  /** The characters of `sql` outside quotes and comments, without the characters that
      open a quote or a comment. */
  function CodeText(sql: string): string {
    Rest(Code, sql)
  }

  // --- What the two scanners are for ------------------------------------------

  predicate IsSpace(c: char) {
    c == ' ' || '\t' <= c <= '\r'
  }

  /** Some code-level `;` is followed by a code-level character that is neither space nor `;`. */
  ghost predicate Stacked(code: string) {
    exists i, j :: 0 <= i < j < |code| && code[i] == ';' && code[j] != ';' && !IsSpace(code[j])
  }

  ghost predicate IsMulti(sql: string) {
    Stacked(CodeText(sql))
  }

  function Count(c: char, s: string): nat {
    if s == "" then 0 else (if s[0] == c then 1 else 0) + Count(c, s[1..])
  }

  function Placeholders(sql: string): nat {
    Count('?', CodeText(sql))
  }

  // --- Compositionality ---------------------------------------------------------

  /** Scanning a concatenation is scanning the second part from where the first part ended. */
  lemma ScanConcat(st: Lex, a: string, b: string)
    ensures Run(st, a + b) == Run(Run(st, a), b)
    ensures Rest(st, a + b) == Out(st, a) + Rest(Run(st, a), b)
  {
    RunConcat(st, a, b);
    OutConcat(st, a, b);
    assert Out(st, a) + Out(Run(st, a), b) + Held(Run(Run(st, a), b))
        == Out(st, a) + (Out(Run(st, a), b) + Held(Run(Run(st, a), b)));
  }

  lemma {:induction false} RunConcat(st: Lex, a: string, b: string)
    ensures Run(st, a + b) == Run(Run(st, a), b)
    decreases a
  {
    if a == "" {
      assert a + b == b;
    } else {
      assert (a + b)[1..] == a[1..] + b;
      RunConcat(Step(st, a[0]), a[1..], b);
    }
  }

  lemma {:induction false} OutConcat(st: Lex, a: string, b: string)
    ensures Out(st, a + b) == Out(st, a) + Out(Run(st, a), b)
    decreases a
  {
    if a == "" {
      assert a + b == b;
      assert Out(st, b) == "" + Out(st, b);
    } else {
      var t := Step(st, a[0]);
      OutConcat(t, a[1..], b);
      assert (a + b)[1..] == a[1..] + b && (a + b)[0] == a[0];
      Reassociate(Emit(st, a[0]), Out(t, a[1..]), Out(Run(t, a[1..]), b));
    }
  }

  /** From code back to code, with `code` as the text seen at code level. */
  ghost predicate Reads(s: string, code: string) {
    Run(Code, s) == Code && Out(Code, s) == code
  }

  lemma {:induction false} PlainReads(s: string)
    requires forall i :: 0 <= i < |s| ==> Enter(s[i]) == Code
    ensures Reads(s, s)
    decreases s
  {
    if s == "" {
    } else {
      PlainReads(s[1..]);
      assert [s[0]] + s[1..] == s;
    }
  }

  /** `e` may stand for the value `v` inside a quoted string: every character is copied, when
      it is neither a single nor a double quote nor a backslash, or replaced by a backslash and
      one character. A backtick may be copied. */
  ghost predicate EscapesTo(v: string, e: string) {
    if v == "" then e == ""
    else
      || (|e| >= 2 && e[0] == '\\' && EscapesTo(v[1..], e[2..]))
      || (|e| >= 1 && e[0] == v[0] && v[0] != '\\' && v[0] != '\'' && v[0] != '"' && EscapesTo(v[1..], e[1..]))
  }

  /** An escaped value neither closes the string it stands in nor leaves it half-escaped,
      and it is at most twice as long as the value, the buffer the escaper is given. */
  lemma {:induction false} EscapedValueStaysQuoted(v: string, e: string, q: char)
    requires EscapesTo(v, e) && (q == '\'' || q == '"')
    ensures Run(Quoted(q), e) == Quoted(q) && Out(Quoted(q), e) == "" && |e| <= 2 * |v|
  {
    if v == "" {
    } else if |e| >= 2 && e[0] == '\\' && EscapesTo(v[1..], e[2..]) {
      EscapedValueStaysQuoted(v[1..], e[2..], q);
      assert e[1..][1..] == e[2..];
      assert Step(Quoted(q), e[0]) == Escaped(q) && Step(Escaped(q), e[1]) == Quoted(q);
      assert Run(Quoted(q), e) == Run(Escaped(q), e[1..]) == Run(Quoted(q), e[2..]);
      assert Out(Escaped(q), e[1..]) == Out(Quoted(q), e[2..]);
    } else {
      EscapedValueStaysQuoted(v[1..], e[1..], q);
    }
  }

  // --- The scanners' own view: settled states and one character of lookahead ------

  /** The state a scanner with lookahead is in when the automaton is in `st`. */
  function Settle(st: Lex): Lex {
    match st
    case Dash => Code
    case Slash => Code
    case Escaped(q) => Quoted(q)
    case BlockStar => Block
    case _ => st
  }

  predicate Settled(mode: Lex) {
    mode == Code || (mode.Quoted? && IsQuote(mode.quote)) || mode == Line || mode == Block
  }

  /** The character at `i`, or NUL past the end, as the scanners read it. */
  function At(s: string, i: nat): char {
    if i < |s| then s[i] else '\0'
  }

  /** One iteration of a scanner that sees `c` and the character `n` after it: its next
      state and how many characters the iteration consumes (one more than the text has
      left, when a backslash ends it). */
  function Next(mode: Lex, c: char, n: char): (r: (Lex, nat))
    requires Settled(mode)
    ensures Settled(r.0) && 1 <= r.1 <= 2
  {
    match mode
    case Code =>
      if IsQuote(c) then (Quoted(c), 1)
      else if c == '-' && n == '-' then (Line, 2)
      else if c == '#' then (Line, 1)
      else if c == '/' && n == '*' then (Block, 2)
      else (Code, 1)
    case Quoted(q) => if c == '\\' && q != '`' then (mode, 2) else if c == q then (Code, 1) else (mode, 1)
    case Line => (if c == '\n' then Code else Line, 1)
    case _ => if c == '*' && n == '/' then (Code, 2) else (Block, 1)
  }

  /** Whether an iteration treats the character it sees as code. */
  predicate Seen(mode: Lex, c: char, n: char)
    requires Settled(mode)
  {
    mode == Code && Next(mode, c, n) == (Code, 1)
  }

  function Drop(s: string, k: nat): string {
    if k <= |s| then s[k..] else ""
  }

  /** The positions a scanner's loop visits from offset `i`, with the state it is in at each. */
  function VisitsFrom(mode: Lex, sql: string, i: nat): seq<(nat, Lex)>
    requires Settled(mode)
    decreases |sql| - i
  {
    if i >= |sql| then []
    else
      var (m, k) := Next(mode, sql[i], At(sql, i + 1));
      [(i, mode)] + VisitsFrom(m, sql, i + k)
  }

  function Visits(sql: string): seq<(nat, Lex)> {
    VisitsFrom(Code, sql, 0)
  }

  /** The code-level text a scanner's loop finds from offset `i`, one iteration at a time. */
  function Ahead(mode: Lex, sql: string, i: nat): string
    requires Settled(mode)
    decreases |sql| - i
  {
    if i >= |sql| then ""
    else
      var (m, k) := Next(mode, sql[i], At(sql, i + 1));
      (if Seen(mode, sql[i], At(sql, i + 1)) then [sql[i]] else "") + Ahead(m, sql, i + k)
  }

  /** Looking ahead and holding characters back find the same code, in every settled state. */
  lemma {:induction false} LookaheadAgrees(mode: Lex, sql: string, i: nat)
    requires Settled(mode)
    ensures Ahead(mode, sql, i) == Rest(mode, Drop(sql, i))
    decreases |sql| - i
  {
    if i >= |sql| {
    } else {
      var (m, k) := Next(mode, sql[i], At(sql, i + 1));
      LookaheadAgrees(m, sql, i + k);
      AheadStep(mode, sql, i, m, k);
    }
  }

  lemma AheadStep(mode: Lex, sql: string, i: nat, m: Lex, k: nat)
    requires Settled(mode) && i < |sql| && (m, k) == Next(mode, sql[i], At(sql, i + 1))
    requires Ahead(m, sql, i + k) == Rest(m, Drop(sql, i + k))
    ensures Ahead(mode, sql, i) == Rest(mode, Drop(sql, i))
  {
    var s := sql[i..];
    assert s[0] == sql[i] && At(s, 1) == At(sql, i + 1);
    assert Drop(sql, i) == s && Drop(s, k) == Drop(sql, i + k);
    NextAgrees(mode, s);
  }

  lemma NextAgrees(mode: Lex, s: string)
    requires Settled(mode) && s != ""
    ensures var (m, k) := Next(mode, s[0], At(s, 1));
            Rest(mode, s) == (if Seen(mode, s[0], At(s, 1)) then [s[0]] else "") + Rest(m, Drop(s, k))
  {
    var (m, k) := Next(mode, s[0], At(s, 1));
    if k == 2 {
      TwoCharacters(mode, s);
      assert !Seen(mode, s[0], At(s, 1)) && "" + Rest(m, Drop(s, 2)) == Rest(m, Drop(s, 2));
    } else {
      OneCharacter(mode, s);
    }
  }

  lemma TwoCharacters(mode: Lex, s: string)
    requires Settled(mode) && s != "" && Next(mode, s[0], At(s, 1)).1 == 2
    ensures Rest(mode, s) == Rest(Next(mode, s[0], At(s, 1)).0, Drop(s, 2))
  {
    TwoStates(mode, s[0], At(s, 1));
    Silent(mode, s);
    if |s| > 1 {
      Silent(Step(mode, s[0]), s[1..]);
      assert s[1..][1..] == s[2..] && s[1..][0] == s[1];
    } else {
      assert s[1..] == "";
    }
  }

  lemma TwoStates(mode: Lex, c: char, n: char)
    requires Settled(mode) && Next(mode, c, n).1 == 2
    ensures Emit(mode, c) == "" && Emit(Step(mode, c), n) == ""
    ensures Step(Step(mode, c), n) == Next(mode, c, n).0
    ensures n == '\0' ==> Step(mode, c) == Escaped(mode.quote) && mode == Next(mode, c, n).0
  {
  }

  lemma Silent(st: Lex, s: string)
    requires s != "" && Emit(st, s[0]) == ""
    ensures Rest(st, s) == Rest(Step(st, s[0]), s[1..])
  {
    Unfold(st, s);
  }

  lemma OneCharacter(mode: Lex, s: string)
    requires Settled(mode) && s != "" && Next(mode, s[0], At(s, 1)).1 == 1
    ensures Rest(mode, s)
            == (if Seen(mode, s[0], At(s, 1)) then [s[0]] else "") + Rest(Next(mode, s[0], At(s, 1)).0, s[1..])
  {
    var st := Step(mode, s[0]);
    NextState(mode, s[0], At(s, 1));
    SeenHere(mode, s[0], At(s, 1));
    OneStep(mode, s, st);
  }

  lemma NextState(mode: Lex, c: char, n: char)
    requires Settled(mode) && Next(mode, c, n).1 == 1
    ensures Settle(Step(mode, c)) == Next(mode, c, n).0
  {
  }

  lemma SeenHere(mode: Lex, c: char, n: char)
    requires Settled(mode) && Next(mode, c, n).1 == 1
    ensures Emit(mode, c) + Held(Step(mode, c)) == if Seen(mode, c, n) then [c] else ""
  {
    if mode == Code {
      if Enter(c) == Code {
        assert Emit(mode, c) + "" == [c];
      } else {
        assert "" + Held(Enter(c)) == Held(Enter(c));
      }
    }
  }

  /** A state the automaton keeps apart while a comment delimiter is half read is, once the
      next character is known not to complete it, the settled state with that character seen. */
  lemma Undecided(st: Lex, s: string)
    requires st == Dash ==> s == "" || s[0] != '-'
    requires st == Slash ==> s == "" || s[0] != '*'
    requires st == BlockStar ==> s == "" || s[0] != '/'
    requires !st.Escaped?
    ensures Rest(st, s) == Held(st) + Rest(Settle(st), s)
  {
    if s != "" && (st == Dash || st == Slash || st == BlockStar) {
      Unfold(st, s);
      Unfold(Settle(st), s);
    }
  }

  lemma OneStep(mode: Lex, s: string, st: Lex)
    requires s != "" && st == Step(mode, s[0]) && !st.Escaped?
    requires st == Dash ==> s[1..] == "" || s[1] != '-'
    requires st == Slash ==> s[1..] == "" || s[1] != '*'
    requires st == BlockStar ==> s[1..] == "" || s[1] != '/'
    ensures Rest(mode, s) == Emit(mode, s[0]) + Held(st) + Rest(Settle(st), s[1..])
  {
    Unfold(mode, s);
    Undecided(st, s[1..]);
    Reassociate(Emit(mode, s[0]), Held(st), Rest(Settle(st), s[1..]));
  }

  lemma Reassociate(a: string, b: string, c: string)
    ensures a + (b + c) == a + b + c
  {
  }

  lemma Unfold(st: Lex, s: string)
    requires s != ""
    ensures Run(st, s) == Run(Step(st, s[0]), s[1..])
    ensures Rest(st, s) == Emit(st, s[0]) + Rest(Step(st, s[0]), s[1..])
  {
    Reassociate(Emit(st, s[0]), Out(Step(st, s[0]), s[1..]), Held(Run(st, s)));
  }
}
