/** That the judgement of `Formatting` on format strings is exact: a format it rejects really
    does depend on its values, already in the state the scanner is left in. */
module Exactness {
  import opened Options
  import opened SqlScan
  import opened Statements
  import opened Models
  import opened Formatting

  // --- One value ----------------------------------------------------------------------------

  /** The state after the value of `spec` is the same for all values and escapers. */
  ghost predicate ValueFixed(spec: char, st: Lex) {
    forall esc, a: Arg, b: Arg :: Escapes(esc) && NumberText(a.float) && NumberText(b.float) ==>
      Run(st, ValueText(spec, a, Some(esc))) == Run(st, ValueText(spec, b, Some(esc)))
  }

  lemma RunTwo(st: Lex, c: char, d: char)
    ensures Run(st, [c]) == Step(st, c) && Run(st, [c, d]) == Step(Step(st, c), d)
  {
    assert [c][1..] == "" && [d][1..] == "" && [c, d][1..] == [d];
    assert Run(Step(st, c), [d]) == Run(Step(Step(st, c), d), "");
  }

  lemma RunFour(st: Lex, c: char, d: char, e: char, g: char)
    ensures Run(st, [c, d, e]) == Step(Step(Step(st, c), d), e)
    ensures Run(st, [c, d, e, g]) == Step(Step(Step(Step(st, c), d), e), g)
  {
    assert [c, d, e][1..] == [d, e] && [c, d, e, g][1..] == [d, e, g] && [d, e, g][1..] == [e, g];
    RunTwo(Step(st, c), d, e);
    RunTwo(Step(Step(st, c), d), e, g);
  }

  /** Printed numbers leave the scanner in one state if and only if they do not follow a lone
      dash: there a sign completes a comment opener. */
  lemma NumbersAgreeUnlessDash(st: Lex)
    requires Proper(st)
    ensures (forall s, t :: NumberText(s) && NumberText(t) ==> Run(st, s) == Run(st, t)) <==> st != Dash
  {
    if st == Dash {
      RunTwo(Dash, '-', '1');
      RunTwo(Dash, '1', '1');
      assert "-1"[1..] == "1" && Unsigned("1") && NumberText("-1");
      assert Run(st, "-1") == Line && Run(st, "1") == Code;
    } else {
      forall s, t | NumberText(s) && NumberText(t) ensures Run(st, s) == Run(st, t) {
        NumberAfter(st, NOTHING, s);
        NumberAfter(st, NOTHING, t);
      }
    }
  }

  /** A character that leaves `st` for another state, unless an escaper hides it. */
  function Breaker(st: Lex): char {
    match st
    case Code => '\''
    case Quoted(q) => q
    case Line => '\n'
    case Block => '*'
    case _ => 'a'
  }

  lemma BreakerBreaks(st: Lex)
    requires Proper(st)
    ensures Run(st, [Breaker(st)]) != st
  {
    RunTwo(st, Breaker(st), 'a');
  }

  function TextArg(text: string): Arg {
    Arg(0, "0", text)
  }

  lemma TextArgFits(text: string)
    ensures NumberText(TextArg(text).float)
  {
    assert Unsigned("0");
  }

  /** An escaped value where it is not allowed can change the state. */
  lemma EscapedBreaks(st: Lex)
    requires Proper(st) && !Allowed('e', st)
    ensures Run(st, LeastEscape([Breaker(st)])) != st && LeastEscape("") == ""
  {
    EscapedOne(LEAST_ESCAPES, Breaker(st));
    if st == Code {
      RunTwo(Code, '\\', '\'');
    } else {
      BreakerBreaks(st);
    }
  }

  /** A name that shows outside code: it ends what the backtick before it stands in. */
  function Intruder(st: Lex): string {
    match st
    case Quoted(q) => if q == '`' then "#" else [q]
    case Escaped(q) => [q]
    case Line => "\n"
    case _ => "*/"
  }

  lemma IntruderShows(st: Lex)
    requires Proper(st) && !InCode(st)
    ensures Run(st, Ident(Intruder(st))) != Run(st, Ident(""))
  {
    assert Ident("") == "``";
    RunTwo(st, '`', '`');
    var name := Intruder(st);
    if |name| == 1 {
      IdentOfOne(name[0]);
      RunFour(st, '`', name[0], '`', '`');
    } else {
      IdentOfTwo('*', '/');
      RunFour(st, '`', '*', '/', '`');
    }
  }

  lemma IdentOfOne(c: char)
    requires c != '`'
    ensures Ident([c]) == ['`', c, '`']
  {
    assert [c][1..] == "";
    assert Doubled([c]) == [c];
  }

  lemma IdentOfTwo(c: char, d: char)
    requires c != '`' && d != '`'
    ensures Ident([c, d]) == ['`', c, d, '`']
  {
    assert [c, d][1..] == [d] && [d][1..] == "";
    assert Doubled([d]) == [d];
    assert Doubled([c, d]) == [c, d];
  }

  /** Where a value is not allowed, two values make a difference. */
  lemma ValuesDiffer(spec: char, st: Lex) returns (a: Arg, b: Arg)
    requires TakesValue(spec) && Proper(st) && !Allowed(spec, st)
    ensures NumberText(a.float) && NumberText(b.float)
    ensures Run(st, ValueText(spec, a, Some(LeastEscape))) != Run(st, ValueText(spec, b, Some(LeastEscape)))
  {
    TextArgFits("");
    if spec == 'e' {
      EscapedBreaks(st);
      a, b := TextArg(""), TextArg([Breaker(st)]);
    } else if spec == 's' {
      BreakerBreaks(st);
      a, b := TextArg(""), TextArg([Breaker(st)]);
    } else if spec == 'q' {
      IntruderShows(st);
      a, b := TextArg(Intruder(st)), TextArg("");
    } else {
      a, b := Arg(1, "1", ""), Arg(-1, "-1", "");
      assert "-1"[1..] == "1" && Unsigned("1");
      assert Digits(1) == "1" && IntText(1) == "1" && IntText(-1) == "-1";
      RunTwo(Dash, '-', '1');
      RunTwo(Dash, '1', '1');
    }
  }

  /** The rule for one value is exact, for every specifier and every state: the value may stand
      there if and only if it makes no difference to the state it leaves. */
  lemma AllowedIsExact(spec: char, st: Lex)
    requires TakesValue(spec) && Proper(st)
    ensures Allowed(spec, st) <==> ValueFixed(spec, st)
  {
    if Allowed(spec, st) {
      forall esc, a: Arg, b: Arg | Escapes(esc) && NumberText(a.float) && NumberText(b.float)
        ensures Run(st, ValueText(spec, a, Some(esc))) == Run(st, ValueText(spec, b, Some(esc)))
      {
        ValueAfter(spec, a, esc, st, NOTHING);
        ValueAfter(spec, b, esc, st, NOTHING);
      }
    } else {
      var a, b := ValuesDiffer(spec, st);
      LeastEscaperFits();
    }
  }

  // --- Whole formats --------------------------------------------------------------------------

  predicate Fits(args: seq<Arg>, n: nat) {
    |args| == n && forall i :: 0 <= i < n ==> NumberText(args[i].float)
  }

  /** However far the format has been worked off, the scanner's state does not depend on the
      values. */
  ghost predicate StatesFixed(st: Lex, fmt: string, n: nat) {
    forall k, esc, a, b :: 0 <= k <= |fmt| && Escapes(esc) && Fits(a, n) && Fits(b, n) ==>
      Run(st, FormatText(fmt[..k], a, Some(esc))) == Run(st, FormatText(fmt[..k], b, Some(esc)))
  }

  lemma {:induction false} PredictPrefix(st: Lex, f: Findings, fmt: string, n: nat, k: nat)
    requires Predict(st, f, fmt, n).Some? && k <= |fmt|
    ensures Predict(st, f, fmt[..k], n).Some?
    decreases |fmt|
  {
    if k == 0 || fmt[..k] == "%" {
    } else if fmt[0] != '%' {
      var (t, g) := AfterChar(st, f, fmt[0]);
      PredictPrefix(t, g, fmt[1..], n, k - 1);
      assert fmt[..k][1..] == fmt[1..][..k - 1];
    } else {
      assert fmt[..k][2..] == fmt[2..][..k - 2];
      var (t, g) := AfterChar(st, f, '%');
      if fmt[1] == '%' {
        PredictPrefix(t, g, fmt[2..], n, k - 2);
      } else if TakesValue(fmt[1]) && n > 0 {
        PredictPrefix(AfterValue(fmt[1], st, f).0, AfterValue(fmt[1], st, f).1, fmt[2..], n - 1, k - 2);
      } else {
        var (u, h) := AfterChar(t, g, fmt[1]);
        PredictPrefix(u, h, fmt[2..], n, k - 2);
      }
    }
  }

  lemma PredictedIsFixed(st: Lex, f: Findings, fmt: string, n: nat)
    requires Proper(st) && Predict(st, f, fmt, n).Some?
    ensures StatesFixed(st, fmt, n)
  {
    forall k, esc, a, b | 0 <= k <= |fmt| && Escapes(esc) && Fits(a, n) && Fits(b, n)
      ensures Run(st, FormatText(fmt[..k], a, Some(esc))) == Run(st, FormatText(fmt[..k], b, Some(esc)))
    {
      PredictPrefix(st, f, fmt, n, k);
      PredictionHolds(st, f, fmt[..k], a, esc);
      PredictionHolds(st, f, fmt[..k], b, esc);
    }
  }

  // The first unit of a format, cut off behind it: one literal character, two characters that
  // take no value, or a specifier with its value.

  lemma LiteralUnit(fmt: string, k: nat, args: seq<Arg>, conn: Escaper)
    requires fmt != "" && fmt[0] != '%' && k < |fmt|
    ensures FormatText(fmt[..k + 1], args, conn) == [fmt[0]] + FormatText(fmt[1..][..k], args, conn)
  {
    assert fmt[..k + 1][1..] == fmt[1..][..k];
  }

  function PairText(fmt: string): string
    requires |fmt| > 1
  {
    if fmt[1] == '%' then "%" else ['%', fmt[1]]
  }

  lemma PairUnit(fmt: string, k: nat, args: seq<Arg>, conn: Escaper)
    requires |fmt| > 1 && fmt[0] == '%' && k < |fmt| - 1
    requires fmt[1] == '%' || !TakesValue(fmt[1]) || args == []
    ensures FormatText(fmt[..k + 2], args, conn) == PairText(fmt) + FormatText(fmt[2..][..k], args, conn)
  {
    assert fmt[..k + 2][2..] == fmt[2..][..k];
  }

  lemma ValueUnit(fmt: string, k: nat, args: seq<Arg>, conn: Escaper)
    requires |fmt| > 1 && fmt[0] == '%' && k < |fmt| - 1 && TakesValue(fmt[1]) && args != []
    ensures FormatText(fmt[..k + 2], args, conn)
         == ValueText(fmt[1], args[0], conn) + FormatText(fmt[2..][..k], args[1..], conn)
  {
    assert fmt[..k + 2][2..] == fmt[2..][..k];
  }

  /** A difference behind a common head is a difference. */
  lemma Later(st: Lex, head: string, x: string, y: string)
    requires Run(Run(st, head), x) != Run(Run(st, head), y)
    ensures Run(st, head + x) != Run(st, head + y)
  {
    RunConcat(st, head, x);
    RunConcat(st, head, y);
  }

  function Padding(n: nat): seq<Arg> {
    seq(n, i => TextArg(""))
  }

  lemma PaddingFits(a: Arg, n: nat)
    requires NumberText(a.float)
    ensures Fits([a] + Padding(n), n + 1)
  {
    TextArgFits("");
  }

  /** Two lists of values that leave the scanner in different states somewhere on the way. */
  ghost predicate Apart(st: Lex, fmt: string, n: nat, k: nat, a: seq<Arg>, b: seq<Arg>) {
    && k <= |fmt| && Fits(a, n) && Fits(b, n)
    && Run(st, FormatText(fmt[..k], a, Some(LeastEscape))) != Run(st, FormatText(fmt[..k], b, Some(LeastEscape)))
  }

  /** A rejected format comes with two such lists. */
  lemma {:induction false} RejectedDepends(st: Lex, f: Findings, fmt: string, n: nat)
    returns (k: nat, a: seq<Arg>, b: seq<Arg>)
    requires Proper(st) && Predict(st, f, fmt, n).None?
    ensures Apart(st, fmt, n, k, a, b)
    decreases |fmt|, 1
  {
    var (t, g) := AfterChar(st, f, fmt[0]);
    if fmt[0] != '%' {
      k, a, b := RejectedDepends(t, g, fmt[1..], n);
      LiteralApart(st, fmt, n, k, a, b);
      k := k + 1;
    } else if fmt[1] == '%' {
      k, a, b := RejectedDepends(t, g, fmt[2..], n);
      PairApart(st, fmt, n, k, a, b);
      k := k + 2;
    } else if TakesValue(fmt[1]) && n > 0 {
      k, a, b := RejectedValue(st, f, fmt, n);
    } else {
      var (u, h) := AfterChar(t, g, fmt[1]);
      k, a, b := RejectedDepends(u, h, fmt[2..], n);
      PairApart(st, fmt, n, k, a, b);
      k := k + 2;
    }
  }

  lemma RejectedValue(st: Lex, f: Findings, fmt: string, n: nat) returns (k: nat, a: seq<Arg>, b: seq<Arg>)
    requires Proper(st) && Predict(st, f, fmt, n).None?
    requires |fmt| > 1 && fmt[0] == '%' && fmt[1] != '%' && TakesValue(fmt[1]) && n > 0
    ensures Apart(st, fmt, n, k, a, b)
    decreases |fmt|, 0
  {
    if Allowed(fmt[1], st) {
      var (t, g) := AfterValue(fmt[1], st, f);
      k, a, b := RejectedDepends(t, g, fmt[2..], n - 1);
      ValueApart(st, f, fmt, n, k, a, b);
      k, a, b := k + 2, [TextArg("")] + a, [TextArg("")] + b;
    } else {
      var x, y := ValuesDiffer(fmt[1], st);
      FirstApart(st, fmt, n, x, y);
      k, a, b := 2, [x] + Padding(n - 1), [y] + Padding(n - 1);
    }
  }

  lemma LiteralApart(st: Lex, fmt: string, n: nat, k: nat, a: seq<Arg>, b: seq<Arg>)
    requires fmt != "" && fmt[0] != '%' && Apart(Step(st, fmt[0]), fmt[1..], n, k, a, b)
    ensures Apart(st, fmt, n, k + 1, a, b)
  {
    LiteralUnit(fmt, k, a, Some(LeastEscape));
    LiteralUnit(fmt, k, b, Some(LeastEscape));
    RunTwo(st, fmt[0], fmt[0]);
    Later(st, [fmt[0]], FormatText(fmt[1..][..k], a, Some(LeastEscape)),
      FormatText(fmt[1..][..k], b, Some(LeastEscape)));
  }

  lemma PairApart(st: Lex, fmt: string, n: nat, k: nat, a: seq<Arg>, b: seq<Arg>)
    requires |fmt| > 1 && fmt[0] == '%' && (fmt[1] == '%' || !TakesValue(fmt[1]) || n == 0)
    requires Apart(if fmt[1] == '%' then Step(st, '%') else Step(Step(st, '%'), fmt[1]), fmt[2..], n, k, a, b)
    ensures Apart(st, fmt, n, k + 2, a, b)
  {
    PairUnit(fmt, k, a, Some(LeastEscape));
    PairUnit(fmt, k, b, Some(LeastEscape));
    RunTwo(st, '%', fmt[1]);
    Later(st, PairText(fmt), FormatText(fmt[2..][..k], a, Some(LeastEscape)),
      FormatText(fmt[2..][..k], b, Some(LeastEscape)));
  }

  lemma ValueApart(st: Lex, f: Findings, fmt: string, n: nat, k: nat, a: seq<Arg>, b: seq<Arg>)
    requires |fmt| > 1 && fmt[0] == '%' && fmt[1] != '%' && TakesValue(fmt[1]) && n > 0 && Proper(st)
             && Allowed(fmt[1], st)
    requires Apart(AfterValue(fmt[1], st, f).0, fmt[2..], n - 1, k, a, b)
    ensures Apart(st, fmt, n, k + 2, [TextArg("")] + a, [TextArg("")] + b)
  {
    var d := TextArg("");
    TextArgFits("");
    LeastEscaperFits();
    assert ([d] + a)[1..] == a && ([d] + b)[1..] == b;
    ValueUnit(fmt, k, [d] + a, Some(LeastEscape));
    ValueUnit(fmt, k, [d] + b, Some(LeastEscape));
    ValueAfter(fmt[1], d, LeastEscape, st, f);
    Later(st, ValueText(fmt[1], d, Some(LeastEscape)), FormatText(fmt[2..][..k], a, Some(LeastEscape)),
          FormatText(fmt[2..][..k], b, Some(LeastEscape)));
  }

  lemma FirstApart(st: Lex, fmt: string, n: nat, x: Arg, y: Arg)
    requires |fmt| > 1 && fmt[0] == '%' && fmt[1] != '%' && TakesValue(fmt[1]) && n > 0
    requires NumberText(x.float) && NumberText(y.float)
    requires Run(st, ValueText(fmt[1], x, Some(LeastEscape))) != Run(st, ValueText(fmt[1], y, Some(LeastEscape)))
    ensures Apart(st, fmt, n, 2, [x] + Padding(n - 1), [y] + Padding(n - 1))
  {
    PaddingFits(x, n - 1);
    PaddingFits(y, n - 1);
    FirstText(fmt, x, Padding(n - 1));
    FirstText(fmt, y, Padding(n - 1));
  }

  lemma FirstText(fmt: string, x: Arg, rest: seq<Arg>)
    requires |fmt| > 1 && fmt[0] == '%' && fmt[1] != '%' && TakesValue(fmt[1])
    ensures FormatText(fmt[..2], [x] + rest, Some(LeastEscape)) == ValueText(fmt[1], x, Some(LeastEscape))
  {
    ValueUnit(fmt, 0, [x] + rest, Some(LeastEscape));
    assert fmt[2..][..0] == "" && ([x] + rest)[0] == x;
  }

  /** The judgement on formats is exact: a format is accepted if and only if the scanner's state
      at no point of the text depends on the values. */
  lemma PredictableIsExact(fmt: string, n: nat)
    ensures Predictable(fmt, n) <==> StatesFixed(Code, fmt, n)
  {
    if Predictable(fmt, n) {
      PredictedIsFixed(Code, NOTHING, fmt, n);
    } else {
      var k, a, b := RejectedDepends(Code, NOTHING, fmt, n);
      LeastEscaperFits();
    }
  }
}
