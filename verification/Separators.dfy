/** What `isMultiStatement` reports against what its two comments say it does. */
module Separators {
  import opened SqlScan
  import opened Scanners

  /** The character seen at a visit counts as code. */
  predicate SeenAt(sql: string, v: (nat, Lex)) {
    v.0 < |sql| && Settled(v.1) && Seen(v.1, sql[v.0], At(sql, v.0 + 1))
  }

  predicate SeparatesAt(sql: string, v: (nat, Lex)) {
    SeenAt(sql, v) && sql[v.0] == ';'
  }

  predicate TextAt(sql: string, v: (nat, Lex)) {
    SeenAt(sql, v) && sql[v.0] != ';' && !IsSpace(sql[v.0])
  }

  predicate OpensQuoteAt(sql: string, v: (nat, Lex)) {
    v.0 < |sql| && v.1 == Code && IsQuote(sql[v.0])
  }

  /** SQL that is neither empty nor a comment: text, or a quote being opened. */
  predicate SqlAt(sql: string, v: (nat, Lex)) {
    TextAt(sql, v) || OpensQuoteAt(sql, v)
  }

  /** What the comment at the definition of `isMultiStatement` says it reports: a separator with
      more SQL behind it. */
  ghost predicate DocMulti(sql: string) {
    var visits := Visits(sql);
    exists j, k :: 0 <= j < k < |visits| && SeparatesAt(sql, visits[j]) && SqlAt(sql, visits[k])
  }

  /** What the comment at its declaration says: a separator with SQL on both sides. */
  ghost predicate HeaderMulti(sql: string) {
    var visits := Visits(sql);
    exists i, j, k :: 0 <= i < j < k < |visits|
                      && SqlAt(sql, visits[i]) && SeparatesAt(sql, visits[j]) && SqlAt(sql, visits[k])
  }

  ghost predicate TextFollows(sql: string, visits: seq<(nat, Lex)>) {
    exists j, k :: 0 <= j < k < |visits| && SeparatesAt(sql, visits[j]) && TextAt(sql, visits[k])
  }

  ghost predicate QuoteOpensAfterSeparator(sql: string) {
    exists j, k :: 0 <= j < k < |Visits(sql)| && SeparatesAt(sql, Visits(sql)[j]) && OpensQuoteAt(sql, Visits(sql)[k])
  }

  ghost predicate SomeText(sql: string) {
    exists k :: 0 <= k < |Visits(sql)| && TextAt(sql, Visits(sql)[k])
  }

  /** The text begins with a separator: the first SQL in it lies behind one. */
  ghost predicate Leads(sql: string) {
    exists j, k :: 0 <= j < k < |Visits(sql)| && SeparatesAt(sql, Visits(sql)[j]) && FirstSql(sql, k)
  }

  ghost predicate FirstSql(sql: string, k: nat) {
    k < |Visits(sql)| && SqlAt(sql, Visits(sql)[k]) && forall i :: 0 <= i < k ==> !SqlAt(sql, Visits(sql)[i])
  }

  /** Behind the first SQL comes a separator, and more SQL behind that. */
  ghost predicate SqlResumes(sql: string) {
    exists f, j, k :: 0 <= f < j < k < |Visits(sql)|
                      && FirstSql(sql, f) && SeparatesAt(sql, Visits(sql)[j]) && SqlAt(sql, Visits(sql)[k])
  }

  /** The code seen along some visits. */
  function CodeSeen(sql: string, visits: seq<(nat, Lex)>): string {
    if visits == [] then ""
    else CodeSeen(sql, visits[..|visits| - 1]) + OneSeen(sql, visits[|visits| - 1])
  }

  function OneSeen(sql: string, v: (nat, Lex)): string {
    if SeenAt(sql, v) then [sql[v.0]] else ""
  }

  lemma {:induction false} CodeSeenFirst(sql: string, v: (nat, Lex), rest: seq<(nat, Lex)>)
    ensures CodeSeen(sql, [v] + rest) == OneSeen(sql, v) + CodeSeen(sql, rest)
    decreases |rest|
  {
    var all := [v] + rest;
    if rest == [] {
      assert all[..0] == [] && all[0] == v;
    } else {
      var init := rest[..|rest| - 1];
      assert all[..|all| - 1] == [v] + init && all[|all| - 1] == rest[|rest| - 1];
      CodeSeenFirst(sql, v, init);
      Reassociate(OneSeen(sql, v), CodeSeen(sql, init), OneSeen(sql, rest[|rest| - 1]));
    }
  }

  lemma {:induction false} VisitsSeeTheCode(mode: Lex, sql: string, i: nat)
    requires Settled(mode)
    ensures Ahead(mode, sql, i) == CodeSeen(sql, VisitsFrom(mode, sql, i))
    decreases |sql| - i
  {
    if i >= |sql| {
    } else {
      var (m, k) := Next(mode, sql[i], At(sql, i + 1));
      VisitsSeeTheCode(m, sql, i + k);
      VisitsSeeOneMore(mode, sql, i, m, k);
    }
  }

  lemma VisitsSeeOneMore(mode: Lex, sql: string, i: nat, m: Lex, k: nat)
    requires Settled(mode) && i < |sql| && (m, k) == Next(mode, sql[i], At(sql, i + 1))
    requires Ahead(m, sql, i + k) == CodeSeen(sql, VisitsFrom(m, sql, i + k))
    ensures Ahead(mode, sql, i) == CodeSeen(sql, VisitsFrom(mode, sql, i))
  {
    OneVisit(mode, sql, i);
    CodeSeenFirst(sql, (i, mode), VisitsFrom(m, sql, i + k));
  }

  lemma OneVisit(mode: Lex, sql: string, i: nat)
    requires Settled(mode) && i < |sql|
    ensures var (m, k) := Next(mode, sql[i], At(sql, i + 1));
            && Ahead(mode, sql, i) == OneSeen(sql, (i, mode)) + Ahead(m, sql, i + k)
            && VisitsFrom(mode, sql, i) == [(i, mode)] + VisitsFrom(m, sql, i + k)
  {
  }

  lemma {:induction false} SeparatorIsSeen(sql: string, visits: seq<(nat, Lex)>)
    ensures ';' in CodeSeen(sql, visits) <==> exists j :: 0 <= j < |visits| && SeparatesAt(sql, visits[j])
    decreases |visits|
  {
    if visits == [] {
    } else {
      var init, last := visits[..|visits| - 1], visits[|visits| - 1];
      SeparatorIsSeen(sql, init);
      assert forall j :: 0 <= j < |init| ==> init[j] == visits[j];
    }
  }

  lemma {:induction false} StackedIsTextAfterSeparator(sql: string, visits: seq<(nat, Lex)>)
    ensures Stacked(CodeSeen(sql, visits)) <==> TextFollows(sql, visits)
    decreases |visits|
  {
    if visits == [] {
    } else {
      var init, last := visits[..|visits| - 1], visits[|visits| - 1];
      StackedIsTextAfterSeparator(sql, init);
      SeparatorIsSeen(sql, init);
      assert forall j :: 0 <= j < |init| ==> init[j] == visits[j];
      if SeenAt(sql, last) {
        StackedByOne(CodeSeen(sql, init), sql[last.0]);
      } else {
        assert CodeSeen(sql, init) + "" == CodeSeen(sql, init);
      }
    }
  }

  lemma MultiIsTextAfterSeparator(sql: string)
    ensures IsMulti(sql) <==> TextFollows(sql, Visits(sql))
  {
    WholeScan(sql);
    VisitsSeeTheCode(Code, sql, 0);
    StackedIsTextAfterSeparator(sql, Visits(sql));
  }

  /** The code reports no more than the comment at its definition says, and on every text it
      agrees with that comment if and only if text follows a separator or no quote opens
      behind one. */
  lemma MultiAgreesWithDefinition(sql: string)
    ensures IsMulti(sql) ==> DocMulti(sql)
    ensures (DocMulti(sql) <==> IsMulti(sql)) <==> (TextFollows(sql, Visits(sql)) || !QuoteOpensAfterSeparator(sql))
  {
    MultiIsTextAfterSeparator(sql);
  }

  lemma SomeFirst(sql: string, k: nat) returns (first: nat)
    requires k < |Visits(sql)| && SqlAt(sql, Visits(sql)[k])
    ensures first <= k && FirstSql(sql, first)
  {
    first := 0;
    while !SqlAt(sql, Visits(sql)[first])
      invariant first <= k && forall i :: 0 <= i < first ==> !SqlAt(sql, Visits(sql)[i])
      decreases k - first
    {
      first := first + 1;
    }
  }

  /** Where the text does not begin with a separator, both comments say the same. */
  lemma CommentsAgree(sql: string)
    ensures HeaderMulti(sql) ==> DocMulti(sql)
    ensures !Leads(sql) ==> (HeaderMulti(sql) <==> DocMulti(sql))
  {
    var visits := Visits(sql);
    if DocMulti(sql) && !Leads(sql) {
      var j, k :| 0 <= j < k < |visits| && SeparatesAt(sql, visits[j]) && SqlAt(sql, visits[k]);
      var i := SomeFirst(sql, k);
      assert i != j && i < j;
    }
  }

  /** Where it does, any text at all is reported. */
  lemma LeadingSeparator(sql: string)
    requires Leads(sql)
    ensures IsMulti(sql) <==> SomeText(sql)
  {
    MultiIsTextAfterSeparator(sql);
    var visits := Visits(sql);
    var j, f :| 0 <= j < f < |visits| && SeparatesAt(sql, visits[j]) && FirstSql(sql, f);
    forall k | 0 <= k < |visits| && TextAt(sql, visits[k]) ensures TextFollows(sql, visits) {
      assert f <= k;
    }
  }

  lemma HeaderIsResuming(sql: string)
    ensures HeaderMulti(sql) <==> SqlResumes(sql)
  {
    var visits := Visits(sql);
    if HeaderMulti(sql) {
      var i, j, k :| 0 <= i < j < k < |visits|
                     && SqlAt(sql, visits[i]) && SeparatesAt(sql, visits[j]) && SqlAt(sql, visits[k]);
      var f := SomeFirst(sql, i);
      assert f < j;
    }
  }

  /** Against the comment at its declaration: on a text that does not begin with a separator
      the code agrees under the same condition as above. On one that does it reports any text,
      and agrees if and only if there is text exactly when SQL resumes behind the first. */
  lemma MultiAgreesWithDeclaration(sql: string)
    ensures !Leads(sql) ==>
              ((HeaderMulti(sql) <==> IsMulti(sql))
               <==> (TextFollows(sql, Visits(sql)) || !QuoteOpensAfterSeparator(sql)))
    ensures Leads(sql) ==> (IsMulti(sql) <==> SomeText(sql))
    ensures Leads(sql) ==> ((HeaderMulti(sql) <==> IsMulti(sql)) <==> (SqlResumes(sql) <==> SomeText(sql)))
  {
    HeaderIsResuming(sql);
    CommentsAgree(sql);
    MultiAgreesWithDefinition(sql);
    if Leads(sql) {
      LeadingSeparator(sql);
    }
  }

  /** All visits but the first lie behind position `i`. */
  ghost predicate Ascends(visits: seq<(nat, Lex)>, i: nat) {
    && (forall k :: 0 <= k < |visits| ==> i <= visits[k].0)
    && (forall k :: 0 < k < |visits| ==> i < visits[k].0)
  }

  lemma {:induction false} VisitsAscend(mode: Lex, sql: string, i: nat)
    requires Settled(mode)
    ensures Ascends(VisitsFrom(mode, sql, i), i)
    decreases |sql| - i
  {
    if i >= |sql| {
    } else {
      var (m, k) := Next(mode, sql[i], At(sql, i + 1));
      VisitsAscend(m, sql, i + k);
      OneVisit(mode, sql, i);
    }
  }

  /** One plain statement behind a separator is reported, although it is the only one. */
  lemma LoneStatementIsReported(sql: string, k: nat)
    requires 0 < k < |sql| && sql[0] == ';' && !IsSpace(sql[k])
    requires forall i :: 0 < i < |sql| ==> Enter(sql[i]) == Code && sql[i] != ';'
    ensures IsMulti(sql) && !HeaderMulti(sql)
  {
    PlainReads(sql);
    assert sql + "" == sql && CodeText(sql) == sql;
    assert sql[0] == ';' && sql[k] != ';' && Stacked(sql);
    VisitsAscend(Code, sql, 0);
    var visits := VisitsFrom(Code, sql, 0);
    forall j | 0 <= j < |visits| && SeparatesAt(sql, visits[j]) ensures j == 0 {
      assert visits[j].0 >= 0 && sql[visits[j].0] == ';';
    }
  }

  /** For example. */
  lemma LoneStatementExample()
    ensures IsMulti(";SELECT 1") && !HeaderMulti(";SELECT 1")
  {
    LoneStatementIsReported(";SELECT 1", 1);
  }

  /** Letters, digits and blanks are visited one by one, in code. */
  lemma {:induction false} PlainVisits(sql: string, i: nat, j: nat)
    requires i <= j <= |sql| && forall k :: i <= k < j ==> Enter(sql[k]) == Code
    ensures |VisitsFrom(Code, sql, i)| >= j - i
    ensures VisitsFrom(Code, sql, i)[j - i..] == VisitsFrom(Code, sql, j)
    decreases j - i
  {
    if i == j {
    } else {
      PlainVisits(sql, i + 1, j);
      assert VisitsFrom(Code, sql, i) == [(i, Code)] + VisitsFrom(Code, sql, i + 1);
    }
  }

  /** It does fall short of them: behind any plain statement, a second one that is all quoted
      text goes unreported. */
  lemma QuotedStatementIsMissed(first: string, v: string, e: string)
    requires (forall k :: 0 <= k < |first| ==> Enter(first[k]) == Code && first[k] != ';') && EscapesTo(v, e)
    ensures var sql := first + ";" + ("'" + e + "'"); DocMulti(sql) && !IsMulti(sql)
  {
    var sql := first + ";" + ("'" + e + "'");
    var n := |first|;
    assert forall k :: 0 <= k < n ==> sql[k] == first[k];
    PlainVisits(sql, 0, n);
    SeparatorThenQuote(sql, n);
    var visits := Visits(sql);
    assert visits[n] == visits[n..][0] && visits[n + 1] == visits[n..][1];
    NothingStacked(first, first + ";");
    QuotedTextIsNotCounted(first, v, e);
  }

  lemma SeparatorThenQuote(sql: string, n: nat)
    requires n + 1 < |sql| && sql[n] == ';' && sql[n + 1] == '\''
    ensures |VisitsFrom(Code, sql, n)| >= 2 && VisitsFrom(Code, sql, n)[..2] == [(n, Code), (n + 1, Code)]
  {
  }

  /** A plain statement with its separator is one statement. */
  lemma NothingStacked(first: string, sql: string)
    requires forall k :: 0 <= k < |first| ==> Enter(first[k]) == Code && first[k] != ';'
    requires |sql| == |first| + 1 && sql[|first|] == ';' && forall k :: 0 <= k < |first| ==> sql[k] == first[k]
    ensures Run(Code, first) == Code && !IsMulti(sql)
  {
    PlainReads(first);
    PlainReads(sql);
    assert sql + "" == sql;
  }

  /** For example. */
  lemma QuotedStatementExample()
    ensures DocMulti("SELECT 1;'x'") && !IsMulti("SELECT 1;'x'")
  {
    assert EscapesTo("x", "x") by {
      assert "x"[1..] == "" && EscapesTo("", "");
    }
    QuotedStatementIsMissed("SELECT 1", "x", "x");
    assert "SELECT 1" + ";" + ("'" + "x" + "'") == "SELECT 1;'x'";
  }

  // --- What is not counted ---------------------------------------------------------

  /** Quoted text after a separator adds nothing to code, so it never makes a text multi,
      although it is neither empty nor a comment. */
  lemma QuotedTextIsNotCounted(sql: string, v: string, e: string)
    requires Run(Code, sql) == Code && EscapesTo(v, e)
    ensures IsMulti(sql + ";" + ("'" + e + "'")) <==> IsMulti(sql + ";")
  {
    var quoted := "'" + e + "'";
    EscapedValueStaysQuoted(v, e, '\'');
    ScanConcat(Code, "'" + e, "'");
    ScanConcat(Code, "'", e);
    assert "'"[1..] == "" && ";"[1..] == "";
    assert Run(Code, "'") == Quoted('\'') && Out(Code, "'") == "" && Rest(Quoted('\''), "'") == "";
    assert Rest(Code, quoted) == "";
    ScanConcat(Code, sql, ";");
    assert Run(Code, sql + ";") == Code;
    ScanConcat(Code, sql + ";", quoted);
    assert CodeText(sql + ";" + quoted) == CodeText(sql + ";");
  }

  // --- What may follow a separator ---------------------------------------------------

  /** Space, tab, newline, vertical tab, form feed, carriage return, and further separators. */
  const TRAILERS: set<char> := {' ', '\t', '\n', 11 as char, 12 as char, '\r', ';'}

  lemma TrailersAreCode(tail: string)
    requires forall i :: 0 <= i < |tail| ==> tail[i] in TRAILERS
    ensures Reads(tail, tail) && forall i :: 0 <= i < |tail| ==> tail[i] == ';' || IsSpace(tail[i])
  {
    PlainReads(tail);
  }

  /** Code behind a whole text joins what is seen of it. */
  lemma CodeJoins(sql: string, more: string)
    requires Run(Code, sql) == Code
    ensures CodeText(sql + more) == CodeText(sql) + CodeText(more)
  {
    ScanConcat(Code, sql, more);
    assert Out(Code, sql) + "" == Out(Code, sql);
  }

  /** A separator that only space and further separators follow makes nothing of a text that it
      was not already. */
  lemma TrailingSpaceIsNoStatement(sql: string, tail: string)
    requires Run(Code, sql) == Code && forall i :: 0 <= i < |tail| ==> tail[i] in TRAILERS
    ensures IsMulti(sql + ";" + tail) <==> IsMulti(sql + ";")
  {
    SeparatorInCode(sql);
    TrailersAreCode(tail);
    assert tail + "" == tail && CodeText(tail) == tail;
    CodeJoins(sql + ";", tail);
    NothingMore(CodeText(sql + ";"), tail);
  }

  lemma SeparatorInCode(sql: string)
    requires Run(Code, sql) == Code
    ensures Run(Code, sql + ";") == Code && CodeText(sql + ";") == CodeText(sql) + ";"
  {
    assert ";"[1..] == "" && Run(Code, ";") == Code && CodeText(";") == ";";
    RunConcat(Code, sql, ";");
    CodeJoins(sql, ";");
  }

  lemma NothingMore(code: string, tail: string)
    requires forall i :: 0 <= i < |tail| ==> tail[i] == ';' || IsSpace(tail[i])
    ensures Stacked(code + tail) <==> Stacked(code)
  {
    if Stacked(code) {
      StackedGrows(code, tail);
    }
    if Stacked(code + tail) {
      var all := code + tail;
      assert forall k :: |code| <= k < |all| ==> all[k] == tail[k - |code|];
      var i, j :| 0 <= i < j < |all| && all[i] == ';' && all[j] != ';' && !IsSpace(all[j]);
      assert code[i] == ';' && code[j] == all[j];
    }
  }

  /** Any other character that opens neither a quote nor a `#` comment does. */
  lemma AnythingElseIsAStatement(sql: string, tail: string, c: char)
    requires Run(Code, sql) == Code && forall i :: 0 <= i < |tail| ==> tail[i] in TRAILERS
    requires c !in TRAILERS && c !in {'\'', '"', '`', '#'}
    ensures IsMulti(sql + ";" + tail + [c])
  {
    SeparatedInCode(sql, tail);
    OneInCode(c);
    CodeJoins(sql + ";" + tail, [c]);
    NoTrailer(c);
    OneBehind(CodeText(sql), tail, c);
  }

  lemma SeparatedInCode(sql: string, tail: string)
    requires Run(Code, sql) == Code && forall i :: 0 <= i < |tail| ==> tail[i] in TRAILERS
    ensures Run(Code, sql + ";" + tail) == Code && CodeText(sql + ";" + tail) == CodeText(sql) + ";" + tail
  {
    SeparatorInCode(sql);
    TrailersAreCode(tail);
    assert tail + "" == tail && CodeText(tail) == tail;
    CodeJoins(sql + ";", tail);
    RunConcat(Code, sql + ";", tail);
  }

  lemma NoTrailer(c: char)
    requires c !in TRAILERS
    ensures c != ';' && !IsSpace(c)
  {
  }

  lemma OneBehind(code: string, tail: string, c: char)
    requires c != ';' && !IsSpace(c)
    ensures Stacked(code + ";" + tail + [c])
  {
    var all := code + ";" + tail + [c];
    assert all[|code|] == ';' && all[|all| - 1] == c;
  }

  lemma OneInCode(c: char)
    requires c !in {'\'', '"', '`', '#'}
    ensures CodeText([c]) == [c]
  {
    Unfold(Code, [c]);
    assert [c][1..] == "" && Rest(Step(Code, c), "") == "" + Held(Step(Code, c));
  }
}
