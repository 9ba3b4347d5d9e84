/** The textual form of vectors, "[x,y,z]": the printer and the tolerant parser. Reading and
    printing one number are parameters. */
module VectorText {

  predicate Blank(c: char) {
    c == ' ' || c == '\t'
  }

  function TrimLeft(s: string): string {
    if s != "" && Blank(s[0]) then TrimLeft(s[1..]) else s
  }

  function TrimRight(s: string): string {
    if s != "" && Blank(s[|s| - 1]) then TrimRight(s[..|s| - 1]) else s
  }

  function Trim(s: string): string {
    TrimRight(TrimLeft(s))
  }

  /** Trimming takes exactly the spaces and tabs off both ends. */
  lemma TrimIsCore(s: string) returns (a: nat, b: nat)
    ensures a <= b <= |s| && Trim(s) == s[a..b]
    ensures forall k :: 0 <= k < a || b <= k < |s| ==> s[k] == ' ' || s[k] == '\t'
    ensures a < b ==> s[a] != ' ' && s[a] != '\t' && s[b - 1] != ' ' && s[b - 1] != '\t'
  {
    a := LeftEnd(s);
    b := RightEnd(s[a..]);
    assert s[a..][..b] == s[a..a + b];
    assert forall k :: a + b <= k < |s| ==> s[k] == s[a..][k - a];
    b := a + b;
  }

  lemma {:induction false} LeftEnd(s: string) returns (a: nat)
    ensures a <= |s| && TrimLeft(s) == s[a..]
    ensures forall k :: 0 <= k < a ==> s[k] == ' ' || s[k] == '\t'
    ensures a < |s| ==> s[a] != ' ' && s[a] != '\t'
    decreases s
  {
    if s == "" || (s[0] != ' ' && s[0] != '\t') {
      a := 0;
    } else {
      var rest := LeftEnd(s[1..]);
      a := rest + 1;
    }
  }

  lemma {:induction false} RightEnd(s: string) returns (b: nat)
    ensures b <= |s| && TrimRight(s) == s[..b]
    ensures forall k :: b <= k < |s| ==> s[k] == ' ' || s[k] == '\t'
    ensures 0 < b ==> s[b - 1] != ' ' && s[b - 1] != '\t'
    decreases |s|
  {
    if s == "" || (s[|s| - 1] != ' ' && s[|s| - 1] != '\t') {
      b := |s|;
    } else {
      var init := s[..|s| - 1];
      b := RightEnd(init);
      assert forall k :: 0 <= k < |init| ==> s[k] == init[k];
    }
  }

  // --- What the text says ---------------------------------------------------------------------

  /** The text behind the first '[', if there is one. */
  function Behind(s: string): string {
    if s == "" then "" else if s[0] == '[' then s[1..] else Behind(s[1..])
  }

  /** The text before the first ']', or all of it. */
  function Before(s: string): string {
    if s == "" || s[0] == ']' then "" else [s[0]] + Before(s[1..])
  }

  /** The pieces between commas. */
  function Pieces(s: string): (r: seq<string>)
    ensures r != []
  {
    if s == "" then [""]
    else if s[0] == ',' then [""] + Pieces(s[1..])
    else var rest := Pieces(s[1..]); [[s[0]] + rest[0]] + rest[1..]
  }

  /** The numbers of the pieces that are not blank. */
  function Values<F>(pieces: seq<string>, atof: string -> F): seq<F> {
    if pieces == [] then []
    else (if Trim(pieces[0]) == "" then [] else [atof(Trim(pieces[0]))]) + Values(pieces[1..], atof)
  }

  function Parsed<F>(s: string, atof: string -> F): seq<F> {
    Values(Pieces(Before(Behind(s))), atof)
  }

  function Joined(parts: seq<string>): string {
    if parts == [] then "" else if |parts| == 1 then parts[0] else parts[0] + "," + Joined(parts[1..])
  }

  function Printed<F>(values: seq<F>, print1: F -> string): string {
    "[" + Joined(seq(|values|, i requires 0 <= i < |values| => print1(values[i]))) + "]"
  }

  // --- The loops ------------------------------------------------------------------------------

  method VectorToString<F>(values: seq<F>, print1: F -> string) returns (out: string)
    ensures out == Printed(values, print1)
  {
    ghost var parts := seq(|values|, i requires 0 <= i < |values| => print1(values[i]));
    out := "[";
    for i := 0 to |values|
      invariant out == "[" + Joined(parts[..i])
    {
      JoinedOneMore(parts, i);
      if i > 0 {
        out := out + ",";
      }
      out := out + print1(values[i]);
    }
    assert parts[..|values|] == parts;
    out := out + "]";
  }

  lemma {:induction false} JoinedOneMore(parts: seq<string>, i: nat)
    requires i < |parts|
    ensures Joined(parts[..i + 1]) == Joined(parts[..i]) + (if i > 0 then "," else "") + parts[i]
    decreases i
  {
    if i == 0 {
      assert parts[..1] == [parts[0]] && "" + "" + parts[0] == parts[0];
    } else {
      assert parts[..i + 1][1..] == parts[1..][..i] && parts[..i][1..] == parts[1..][..i - 1];
      JoinedOneMore(parts[1..], i - 1);
      if i == 1 {
        assert parts[..1] == [parts[0]];
        assert parts[1..][..0] == [];
      }
    }
  }

  /** What surrounds the blanks at both ends of a piece; "" when it is all blank. */
  method TrimPiece(num: string) returns (t: string)
    ensures t == Trim(num)
  {
    var a := 0;
    assert num[0..] == num;
    while a < |num| && Blank(num[a])
      invariant a <= |num| && TrimLeft(num) == TrimLeft(num[a..])
    {
      a := a + 1;
    }
    var b := |num|;
    assert num[a..b] == num[a..];
    while b > a && Blank(num[b - 1])
      invariant a <= b <= |num| && TrimRight(num[a..]) == TrimRight(num[a..b])
    {
      assert num[a..b][..|num[a..b]| - 1] == num[a..b - 1];
      b := b - 1;
    }
    t := num[a..b];
  }

  method Flush<F>(num: string, out: seq<F>, atof: string -> F) returns (more: seq<F>)
    ensures more == out + Values([num], atof)
  {
    var t := TrimPiece(num);
    assert [num][1..] == [] && Values([], atof) == [];
    more := if t == "" then out else out + [atof(t)];
  }

  /** The pieces from position `i` on, when the first of them began with `num`. */
  function Remaining(num: string, src: string, i: nat): seq<string>
    requires i <= |src|
  {
    var pieces := Pieces(Before(src[i..]));
    [num + pieces[0]] + pieces[1..]
  }

  lemma FromHere(src: string, i: nat)
    requires i <= |src|
    ensures Remaining("", src, i) == Pieces(Before(src[i..]))
  {
    var pieces := Pieces(Before(src[i..]));
    assert "" + pieces[0] == pieces[0];
  }

  lemma AtComma<F>(num: string, src: string, i: nat, atof: string -> F)
    requires i < |src| && src[i] == ','
    ensures Values(Remaining(num, src, i), atof) == Values([num], atof) + Values(Remaining("", src, i + 1), atof)
  {
    FromHere(src, i + 1);
    var rest := Before(src[i..]);
    assert rest == [','] + Before(src[i + 1..]) && rest[1..] == Before(src[i + 1..]);
    assert num + "" == num;
    assert Remaining(num, src, i) == [num] + Pieces(rest[1..]);
    assert [num][1..] == [] && Values([], atof) == [];
  }

  lemma AtCharacter(num: string, src: string, i: nat)
    requires i < |src| && src[i] != ',' && src[i] != ']'
    ensures Remaining(num + [src[i]], src, i + 1) == Remaining(num, src, i)
  {
    var rest := Before(src[i..]);
    assert rest == [src[i]] + Before(src[i + 1..]) && rest[1..] == Before(src[i + 1..]);
    assert num + [src[i]] + Pieces(rest[1..])[0] == num + ([src[i]] + Pieces(rest[1..])[0]);
  }

  lemma AtEnd(num: string, src: string, i: nat)
    requires i == |src| || (i < |src| && src[i] == ']')
    ensures Remaining(num, src, i) == [num]
  {
    assert num + "" == num;
  }

  /** Skips to behind the first '['. */
  method FindOpen(src: string) returns (i: nat)
    ensures i <= |src| && src[i..] == Behind(src)
  {
    i := 0;
    assert src[0..] == src;
    while i < |src| && src[i] != '['
      invariant i <= |src| && Behind(src) == Behind(src[i..])
    {
      i := i + 1;
    }
    if i < |src| {
      i := i + 1;
    }
  }

  method ParseVectorString<F>(src: string, atof: string -> F) returns (out: seq<F>)
    ensures out == Parsed(src, atof)
  {
    out := [];
    var i := FindOpen(src);
    var num := "";
    FromHere(src, i);
    ghost var goal := Parsed(src, atof);
    while i < |src|
      invariant i <= |src| && goal == out + Values(Remaining(num, src, i), atof)
    {
      var ch := src[i];
      if ch == ']' {
        break;
      }
      if ch == ',' {
        AtComma(num, src, i, atof);
        Regroup(out, Values([num], atof), Values(Remaining("", src, i + 1), atof));
        out := Flush(num, out, atof);
        num := "";
      } else {
        AtCharacter(num, src, i);
        num := num + [ch];
      }
      i := i + 1;
    }
    AtEnd(num, src, i);
    if num != "" {
      out := Flush(num, out, atof);
    } else {
      assert [""][1..] == [] && Values([""], atof) == [] && out + [] == out;
    }
  }

  lemma Regroup<F>(a: seq<F>, b: seq<F>, c: seq<F>)
    ensures a + (b + c) == a + b + c
  {
  }

  // --- Round trips ------------------------------------------------------------------------------

  /** A component the separators cannot be confused with. */
  predicate Separable(part: string) {
    ',' !in part && ']' !in part
  }

  lemma {:induction false} BeforeBracket(s: string, tail: string)
    requires ']' !in s
    ensures Before(s + "]" + tail) == s
    decreases s
  {
    if s == "" {
      assert ("" + "]" + tail)[0] == ']';
    } else {
      assert (s + "]" + tail)[1..] == s[1..] + "]" + tail;
      BeforeBracket(s[1..], tail);
    }
  }

  lemma {:induction false} BehindBracket(head: string, s: string)
    requires '[' !in head
    ensures Behind(head + "[" + s) == s
    decreases head
  {
    if head == "" {
      assert ("" + "[" + s)[1..] == s;
    } else {
      assert (head + "[" + s)[1..] == head[1..] + "[" + s;
      BehindBracket(head[1..], s);
    }
  }

  lemma {:induction false} PiecesOfOne(part: string)
    requires ',' !in part
    ensures Pieces(part) == [part]
    decreases part
  {
    if part == "" {
    } else {
      PiecesOfOne(part[1..]);
      assert [part[0]] + part[1..] == part;
    }
  }

  lemma {:induction false} PiecesOfTwo(part: string, rest: string)
    requires ',' !in part
    ensures Pieces(part + "," + rest) == [part] + Pieces(rest)
    decreases part
  {
    if part == "" {
      assert "" + "," + rest == "," + rest && ("," + rest)[1..] == rest;
    } else {
      assert (part + "," + rest)[1..] == part[1..] + "," + rest;
      PiecesOfTwo(part[1..], rest);
      assert [part[0]] + part[1..] == part;
    }
  }

  lemma {:induction false} PiecesOfJoined(parts: seq<string>)
    requires parts != [] && forall k :: 0 <= k < |parts| ==> Separable(parts[k])
    ensures Pieces(Joined(parts)) == parts && ']' !in Joined(parts)
    decreases parts
  {
    if |parts| == 1 {
      PiecesOfOne(parts[0]);
    } else {
      PiecesOfTwo(parts[0], Joined(parts[1..]));
      PiecesOfJoined(parts[1..]);
    }
  }

  /** A bracketed list of separable components reads as the numbers of those that are not
      blank, in order, whatever surrounds the brackets. */
  lemma ListReads<F>(head: string, parts: seq<string>, tail: string, atof: string -> F)
    requires '[' !in head && forall k :: 0 <= k < |parts| ==> Separable(parts[k])
    ensures Parsed(head + "[" + (Joined(parts) + "]" + tail), atof) == Values(parts, atof)
  {
    BehindBracket(head, Joined(parts) + "]" + tail);
    if parts == [] {
      BeforeBracket("", tail);
      assert [""][1..] == [];
      assert Values([""], atof) == [];
    } else {
      PiecesOfJoined(parts);
      BeforeBracket(Joined(parts), tail);
    }
  }

  /** A list whose closing bracket is missing reads the same; text without an opening one has no
      numbers. */
  lemma UnclosedListReads<F>(head: string, parts: seq<string>, atof: string -> F)
    requires '[' !in head && forall k :: 0 <= k < |parts| ==> Separable(parts[k])
    ensures Parsed(head + "[" + Joined(parts), atof) == Values(parts, atof)
    ensures Parsed(head, atof) == []
  {
    BehindBracket(head, Joined(parts));
    NothingBehind(head);
    assert [""][1..] == [] && Values([""], atof) == Values<F>([], atof);
    if parts == [] {
    } else {
      PiecesOfJoined(parts);
      NothingCutOff(Joined(parts));
    }
  }

  lemma {:induction false} NothingBehind(s: string)
    requires '[' !in s
    ensures Behind(s) == ""
    decreases s
  {
    if s == "" {
    } else {
      NothingBehind(s[1..]);
    }
  }

  lemma {:induction false} NothingCutOff(s: string)
    requires ']' !in s
    ensures Before(s) == s
    decreases s
  {
    if s == "" {
    } else {
      NothingCutOff(s[1..]);
      assert [s[0]] + s[1..] == s;
    }
  }

  lemma {:induction false} ValuesOfAll<F>(parts: seq<string>, atof: string -> F)
    ensures |Values(parts, atof)| <= |parts|
    ensures |Values(parts, atof)| == |parts| <==> forall k :: 0 <= k < |parts| ==> Trim(parts[k]) != ""
    ensures |Values(parts, atof)| == |parts| ==> forall k :: 0 <= k < |parts| ==>
            Values(parts, atof)[k] == atof(Trim(parts[k]))
    decreases parts
  {
    if parts == [] {
    } else {
      ValuesOfAll(parts[1..], atof);
      assert forall k :: 1 <= k < |parts| ==> parts[k] == parts[1..][k - 1];
      assert (forall k :: 0 <= k < |parts| ==> Trim(parts[k]) != "") ==> forall k :: 0 <= k < |parts| - 1 ==>
        Trim(parts[1..][k]) != "";
    }
  }

  /** Exactly the components come back, each without the blanks around it, if and only if none
      of them is blank. */
  lemma ListRoundTrip<F>(parts: seq<string>, atof: string -> F)
    requires forall k :: 0 <= k < |parts| ==> Separable(parts[k])
    ensures var values := Parsed("[" + Joined(parts) + "]", atof);
            && (|values| == |parts| <==> forall k :: 0 <= k < |parts| ==> Trim(parts[k]) != "")
            && (|values| == |parts| ==> forall k :: 0 <= k < |parts| ==> values[k] == atof(Trim(parts[k])))
  {
    BareListReads(parts, atof);
    ValuesOfAll(parts, atof);
  }

  lemma NothingAround(inner: string)
    ensures "" + "[" + (inner + "]" + "") == "[" + inner + "]"
  {
  }

  lemma BareListReads<F>(parts: seq<string>, atof: string -> F)
    requires forall k :: 0 <= k < |parts| ==> Separable(parts[k])
    ensures Parsed("[" + Joined(parts) + "]", atof) == Values(parts, atof)
  {
    ListReads("", parts, "", atof);
    NothingAround(Joined(parts));
  }

  /** How a printed number may look. */
  predicate Plain(part: string) {
    Separable(part) && part != "" && Trim(part) == part
  }

  /** A printed vector is its numbers between brackets, with one comma between each two. */
  lemma PrintedShape<F>(values: seq<F>, print1: F -> string)
    requires forall k :: 0 <= k < |values| ==> Separable(print1(values[k]))
    ensures var out := Printed(values, print1);
            && |out| >= 2 && out[0] == '[' && out[|out| - 1] == ']'
            && (values == [] ==> out == "[]")
            && (values != [] ==>
                  && |Pieces(out[1..|out| - 1])| == |values|
                  && forall k :: 0 <= k < |values| ==> Pieces(out[1..|out| - 1])[k] == print1(values[k]))
  {
    var parts := seq(|values|, i requires 0 <= i < |values| => print1(values[i]));
    var out := Printed(values, print1);
    assert out[1..|out| - 1] == Joined(parts);
    if values != [] {
      PiecesOfJoined(parts);
    }
  }

  /** Printing a vector and parsing it back gives, number for number, what the printed numbers
      read as. */
  lemma PrintThenParse<F>(values: seq<F>, print1: F -> string, atof: string -> F)
    requires forall k :: 0 <= k < |values| ==> Plain(print1(values[k]))
    ensures Parsed(Printed(values, print1), atof)
            == seq(|values|, k requires 0 <= k < |values| => atof(print1(values[k])))
  {
    var parts := seq(|values|, i requires 0 <= i < |values| => print1(values[i]));
    ListRoundTrip(parts, atof);
    var back := Parsed(Printed(values, print1), atof);
    assert |back| == |values|;
    assert forall k :: 0 <= k < |values| ==> back[k] == atof(parts[k]);
  }
}
