/** Buffered query results and the cache scripts read them from. */
module Results {
  import opened Options

  datatype ResultField = ResultField(name: string, ty: int)
  datatype ResultValue = ResultValue(value: string, isNull: bool)
  datatype ResultSet = ResultSet(fields: seq<ResultField>, rows: seq<seq<ResultValue>>,
                                 affectedRows: nat, insertId: nat, warningCount: nat)
  datatype QueryResult = QueryResult(sets: seq<ResultSet>, queryString: string)

  /** Every row is exactly as wide as the field list. */
  ghost predicate Rectangular(s: ResultSet) {
    forall r :: 0 <= r < |s.rows| ==> |s.rows[r]| == |s.fields|
  }

  ghost predicate Grid(q: QueryResult) {
    forall i :: 0 <= i < |q.sets| ==> Rectangular(q.sets[i])
  }

  // --- Buffering ------------------------------------------------------------------------

  /** One row as the client library hands it out: an array to be indexed by column. */
  type Row = nat -> Option<string>

  /** What the server answers to one statement: metadata, and rows if it is a query. */
  datatype Answer = Answer(fields: seq<ResultField>, rows: seq<Row>, isQuery: bool,
                           affectedRows: nat, insertId: nat, warningCount: nat)

  /** What a set has to show of an answer: its fields and rows if it is a query, each NULL as
      NULL and each text as it came, and its own counters. */
  ghost predicate Shows(s: ResultSet, a: Answer) {
    && s.fields == (if a.isQuery then a.fields else [])
    && |s.rows| == (if a.isQuery then |a.rows| else 0)
    && (forall r :: 0 <= r < |s.rows| ==> |s.rows[r]| == |a.fields|)
    && (forall r, c :: 0 <= r < |s.rows| && 0 <= c < |a.fields| ==>
          s.rows[r][c].isNull == a.rows[r](c).None?)
    && (forall r, c :: 0 <= r < |s.rows| && 0 <= c < |a.fields| && a.rows[r](c).Some? ==>
          s.rows[r][c].value == a.rows[r](c).value)
    && s.affectedRows == a.affectedRows && s.insertId == a.insertId && s.warningCount == a.warningCount
  }

  function Cell(v: Option<string>): ResultValue {
    if v.None? then ResultValue("", true) else ResultValue(v.value, false)
  }

  function CellsOf(a: Answer, row: Row): seq<ResultValue> {
    seq(|a.fields|, c requires 0 <= c < |a.fields| => Cell(row(c)))
  }

  function Buffered(a: Answer): ResultSet {
    ResultSet(if a.isQuery then a.fields else [],
              if a.isQuery then seq(|a.rows|, r requires 0 <= r < |a.rows| => CellsOf(a, a.rows[r])) else [],
              a.affectedRows, a.insertId, a.warningCount)
  }

  lemma BufferedShows(a: Answer)
    ensures Shows(Buffered(a), a)
  {
  }

  /** Copies one answer: a loop over rows with a loop over columns. */
  method BufferAnswer(a: Answer) returns (s: ResultSet)
    ensures s == Buffered(a) && Rectangular(s) && Shows(s, a)
  {
    BufferedShows(a);
    var fields: seq<ResultField> := [];
    var rows: seq<seq<ResultValue>> := [];
    if a.isQuery {
      for i := 0 to |a.fields|
        invariant fields == a.fields[..i]
      {
        fields := fields + [a.fields[i]];
      }
      for r := 0 to |a.rows|
        invariant rows == Buffered(a).rows[..r]
      {
        var cells: seq<ResultValue> := [];
        for c := 0 to |fields|
          invariant cells == Buffered(a).rows[r][..c]
        {
          cells := cells + [Cell(a.rows[r](c))];
        }
        assert cells == Buffered(a).rows[r];
        rows := rows + [cells];
      }
    }
    s := ResultSet(fields, rows, a.affectedRows, a.insertId, a.warningCount);
  }

  /** Runs a query and buffers every result set it produces. The library's final status is
      -1 when the answers simply end and positive when a later statement failed. */
  method QueryBuffered(isOpen: bool, accepted: bool, sql: string, answers: seq<Answer>, status: int)
    returns (ok: bool, out: QueryResult)
    requires accepted ==> answers != []
    ensures Grid(out) && out.queryString == sql
    ensures ok == (isOpen && accepted && status <= 0)
    ensures isOpen && accepted ==> out.sets == seq(|answers|, i requires 0 <= i < |answers| => Buffered(answers[i]))
    ensures isOpen && accepted ==>
              |out.sets| == |answers| && forall i :: 0 <= i < |answers| ==> Shows(out.sets[i], answers[i])
    ensures !(isOpen && accepted) ==> out.sets == []
  {
    out := QueryResult([], sql);
    if !isOpen || !accepted {
      return false, out;
    }
    var sets: seq<ResultSet> := [];
    for i := 0 to |answers|
      invariant |sets| == i && forall j :: 0 <= j < i ==>
                sets[j] == Buffered(answers[j]) && Rectangular(sets[j]) && Shows(sets[j], answers[j])
    {
      var s := BufferAnswer(answers[i]);
      sets := sets + [s];
    }
    out := QueryResult(sets, sql);
    ok := status <= 0;
  }

  // --- Buffering a prepared statement's rows ----------------------------------------------

  /** One column as a prepared statement fetches it: its text, and whether fetching it again
      with a larger buffer works. */
  datatype Fetched = FetchedNull | FetchedText(text: string, refetched: bool)

  const CELL_BUFFER := 1024

  function StatementCell(f: Fetched): ResultValue {
    if f.FetchedNull? then ResultValue("", true)
    else if |f.text| <= CELL_BUFFER || f.refetched then ResultValue(f.text, false)
    else ResultValue("", false)
  }

  type FetchedRow = nat -> Fetched

  /** What a set has to show of a statement's rows: NULL as NULL, and each text as it came,
      unless it is too long for the buffer and cannot be fetched again: then it is empty. */
  ghost predicate ShowsRows(s: ResultSet, fields: seq<ResultField>, rows: seq<FetchedRow>) {
    && s.fields == fields && |s.rows| == |rows|
    && (forall r :: 0 <= r < |rows| ==> |s.rows[r]| == |fields|)
    && (forall r, c :: 0 <= r < |rows| && 0 <= c < |fields| ==>
          s.rows[r][c].isNull == rows[r](c).FetchedNull?)
    && (forall r, c :: 0 <= r < |rows| && 0 <= c < |fields| && rows[r](c).FetchedText? ==>
          s.rows[r][c].value
          == if |rows[r](c).text| <= 1024 || rows[r](c).refetched then rows[r](c).text else "")
  }

  function BufferedRows(fields: seq<ResultField>, rows: seq<FetchedRow>, affectedRows: nat, insertId: nat): ResultSet {
    ResultSet(fields,
              seq(|rows|, r requires 0 <= r < |rows| =>
                seq(|fields|, c requires 0 <= c < |fields| => StatementCell(rows[r](c)))),
              affectedRows, insertId, 0)
  }

  lemma BufferedRowsShow(fields: seq<ResultField>, rows: seq<FetchedRow>, affectedRows: nat, insertId: nat)
    ensures ShowsRows(BufferedRows(fields, rows, affectedRows, insertId), fields, rows)
  {
  }

  /** The rows of an executed statement: a column too long for its buffer is fetched again. */
  method BufferRows(fields: seq<ResultField>, rows: seq<FetchedRow>, affectedRows: nat, insertId: nat)
    returns (s: ResultSet)
    ensures s == BufferedRows(fields, rows, affectedRows, insertId) && Rectangular(s)
    ensures ShowsRows(s, fields, rows)
    ensures s.affectedRows == affectedRows && s.insertId == insertId && s.warningCount == 0
  {
    BufferedRowsShow(fields, rows, affectedRows, insertId);
    var out: seq<seq<ResultValue>> := [];
    for r := 0 to |rows|
      invariant |out| == r
      invariant forall k :: 0 <= k < r ==> |out[k]| == |fields|
      invariant forall k, c :: 0 <= k < r && 0 <= c < |fields| ==> out[k][c] == StatementCell(rows[k](c))
    {
      var cells: seq<ResultValue> := [];
      for c := 0 to |fields|
        invariant |cells| == c && forall k :: 0 <= k < c ==> cells[k] == StatementCell(rows[r](k))
      {
        var f := rows[r](c);
        var v := ResultValue("", f.FetchedNull?);
        if f.FetchedText? && |f.text| <= CELL_BUFFER {
          v := v.(value := f.text);
        } else if f.FetchedText? && f.refetched {
          v := v.(value := f.text);
        }
        cells := cells + [v];
      }
      out := out + [cells];
    }
    s := ResultSet(fields, out, affectedRows, insertId, 0);
    assert forall r :: 0 <= r < |rows| ==> out[r] == BufferedRows(fields, rows, affectedRows, insertId).rows[r];
  }

  // --- What a worker makes of an answer ----------------------------------------------------

  /** What comes of running a job: an error, the answers to a query, or the rows of a statement. */
  datatype Reply =
    | Failed
    | Answers(answers: seq<Answer>)
    | Rows(fields: seq<ResultField>, rows: seq<FetchedRow>, affectedRows: nat, insertId: nat)

  /** The result the job carries back, as the two buffering loops build it. */
  function ResultOf(reply: Reply, sql: string): Option<QueryResult> {
    match reply
    case Failed => None
    case Answers(answers) =>
      Some(QueryResult(seq(|answers|, i requires 0 <= i < |answers| => Buffered(answers[i])), sql))
    case Rows(fields, rows, affectedRows, insertId) =>
      Some(QueryResult([BufferedRows(fields, rows, affectedRows, insertId)], sql))
  }

  /** Whatever the server sends, the result is made of rectangular sets. */
  lemma ReplyIsGrid(reply: Reply, sql: string)
    ensures ResultOf(reply, sql).Some? ==> Grid(ResultOf(reply, sql).value)
  {
  }

  /** And it shows what the server sent: each answer in its own set, or the statement's rows. */
  lemma ReplyIsShown(reply: Reply, sql: string)
    ensures reply.Failed? <==> ResultOf(reply, sql).None?
    ensures ResultOf(reply, sql).Some? ==>
              var q := ResultOf(reply, sql).value;
              && q.queryString == sql
              && (reply.Answers? ==>
                    |q.sets| == |reply.answers| && forall i :: 0 <= i < |q.sets| ==> Shows(q.sets[i], reply.answers[i]))
              && (reply.Rows? ==>
                    && |q.sets| == 1 && ShowsRows(q.sets[0], reply.fields, reply.rows)
                    && q.sets[0].affectedRows == reply.affectedRows && q.sets[0].insertId == reply.insertId)
  {
    match reply
    case Failed =>
    case Answers(answers) =>
      forall i | 0 <= i < |answers| ensures Shows(Buffered(answers[i]), answers[i]) {
        BufferedShows(answers[i]);
      }
    case Rows(fields, rows, affectedRows, insertId) => BufferedRowsShow(fields, rows, affectedRows, insertId);
  }

  /** The first column of that name, or -1. */
  method FieldIndex(s: ResultSet, name: string) returns (index: int)
    ensures -1 <= index < |s.fields|
    ensures index >= 0 ==> s.fields[index].name == name
    ensures forall i :: 0 <= i < |s.fields| && s.fields[i].name == name ==> 0 <= index <= i
  {
    for i := 0 to |s.fields|
      invariant forall j :: 0 <= j < i ==> s.fields[j].name != name
    {
      if s.fields[i].name == name {
        return i;
      }
    }
    index := -1;
  }

  // --- The cache -------------------------------------------------------------------------

  datatype Cache = Cache(active: Option<QueryResult>, index: int, saved: map<int, QueryResult>, next: int)

  const EMPTY_CACHE := Cache(None, 0, map[], 1)

  datatype CacheOp =
    | SetActive(result: QueryResult)
    | ClearActive
    | SelectSet(i: int)
    | Retain
    | Activate(id: int)
    | Release(id: int)
    | Reset

  function Apply(c: Cache, op: CacheOp): Cache {
    match op
    case SetActive(result) => c.(active := Some(result), index := 0)
    case ClearActive => c.(active := None, index := 0)
    case SelectSet(i) => if c.active.Some? && 0 <= i < |c.active.value.sets| then c.(index := i) else c
    case Retain => if c.active.None? then c else c.(saved := c.saved[c.next := c.active.value], next := c.next + 1)
    case Activate(id) => if id in c.saved then c.(active := Some(c.saved[id]), index := 0) else c
    case Release(id) => c.(saved := c.saved - {id})
    case Reset => Cache(None, 0, map[], 1)
  }

  function ApplyAll(c: Cache, ops: seq<CacheOp>): Cache
    decreases ops
  {
    if ops == [] then c else ApplyAll(Apply(c, ops[0]), ops[1..])
  }

  /** Everything the cache holds is a grid, and issued handles stay below the next one. */
  ghost predicate CacheOk(c: Cache) {
    && (c.active.Some? ==> Grid(c.active.value))
    && (forall id :: id in c.saved ==> Grid(c.saved[id]) && 1 <= id < c.next)
    && c.next >= 1
  }

  ghost predicate OpOk(op: CacheOp) {
    op.SetActive? ==> Grid(op.result)
  }

  lemma ApplyKeepsOk(c: Cache, op: CacheOp)
    requires CacheOk(c) && OpOk(op)
    ensures CacheOk(Apply(c, op))
  {
  }

  /** A retained handle keeps denoting the same result through any further queries,
      activations and releases of other handles, and activating it brings that result back. */
  lemma {:induction false} RetainedHandleIsStable(c: Cache, id: int, ops: seq<CacheOp>)
    requires CacheOk(c) && id in c.saved
    requires forall i :: 0 <= i < |ops| ==> OpOk(ops[i]) && ops[i] != Release(id) && ops[i] != Reset
    ensures var d := ApplyAll(c, ops);
            && CacheOk(d) && id in d.saved && d.saved[id] == c.saved[id]
            && Apply(d, Activate(id)).active == Some(c.saved[id])
    decreases ops
  {
    if ops == [] {
    } else {
      ApplyKeepsOk(c, ops[0]);
      RetainedHandleIsStable(Apply(c, ops[0]), id, ops[1..]);
    }
  }

  /** Handles are not reissued before a reset: retaining gives a handle that is neither
      in use nor was ever in use since, however many were released in between. */
  lemma {:induction false} HandlesAreFresh(c: Cache, ops: seq<CacheOp>)
    requires CacheOk(c)
    requires forall i :: 0 <= i < |ops| ==> OpOk(ops[i]) && ops[i] != Reset
    ensures var d := ApplyAll(c, ops);
            CacheOk(d) && c.next <= d.next && d.next !in c.saved && d.next !in d.saved
    decreases ops
  {
    if ops == [] {
    } else {
      ApplyKeepsOk(c, ops[0]);
      HandlesAreFresh(Apply(c, ops[0]), ops[1..]);
    }
  }

  /** The component's cache fields and the natives that read and change them. */
  class ResultCache {
    var active: Option<QueryResult>
    var index: int
    var saved: map<int, QueryResult>
    var next: int

    function View(): Cache
      reads this
    {
      Cache(active, index, saved, next)
    }

    ghost predicate Valid()
      reads this
    {
      CacheOk(View())
    }

    constructor ()
      ensures Valid() && View() == EMPTY_CACHE
    {
      active, index, saved, next := None, 0, map[], 1;
    }

    method Set(result: QueryResult)
      requires Valid() && Grid(result)
      modifies this
      ensures Valid() && View() == Apply(old(View()), SetActive(result))
      ensures active == Some(result) && index == 0 && saved == old(saved) && next == old(next)
    {
      active, index := Some(result), 0;
    }

    method Clear()
      requires Valid()
      modifies this
      ensures Valid() && View() == Apply(old(View()), ClearActive)
      ensures active == None && index == 0 && saved == old(saved) && next == old(next)
    {
      active, index := None, 0;
    }

    method Select(i: int) returns (ok: bool)
      requires Valid()
      modifies this
      ensures Valid() && View() == Apply(old(View()), SelectSet(i))
      ensures ok <==> active.Some? && 0 <= i < |active.value.sets|
      ensures index == (if ok then i else old(index)) && active == old(active) && saved == old(saved)
    {
      if active.None? || i < 0 || i >= |active.value.sets| {
        return false;
      }
      index := i;
      ok := true;
    }

    method Save() returns (id: int)
      requires Valid()
      modifies this
      ensures Valid() && View() == Apply(old(View()), Retain)
      ensures active == old(active) && index == old(index)
      ensures saved == if active.None? then old(saved) else old(saved)[id := active.value]
      ensures if active.None? then id == 0 else id != 0 && id !in old(saved) && id in saved && saved[id] == active.value
    {
      if active.None? {
        return 0;
      }
      id := next;
      saved := saved[id := active.value];
      next := next + 1;
    }

    method Restore(id: int) returns (ok: bool)
      requires Valid()
      modifies this
      ensures Valid() && View() == Apply(old(View()), Activate(id)) && ok == (id in old(saved))
      ensures ok ==> active == Some(old(saved)[id]) && index == 0
      ensures (!ok ==> active == old(active) && index == old(index)) && saved == old(saved)
    {
      if id !in saved {
        return false;
      }
      active, index := Some(saved[id]), 0;
      ok := true;
    }

    method Delete(id: int) returns (ok: bool)
      requires Valid()
      modifies this
      ensures Valid() && View() == Apply(old(View()), Release(id)) && ok == (id in old(saved))
      ensures saved == old(saved) - {id} && active == old(active) && index == old(index)
    {
      ok := id in saved;
      saved := saved - {id};
    }

    /** The result set being read, if one is. */
    ghost function Current(): (s: Option<ResultSet>)
      reads this
      ensures s.Some? <==> active.Some? && 0 <= index < |active.value.sets|
      ensures s.Some? ==> s.value == active.value.sets[index]
    {
      if active.Some? && 0 <= index < |active.value.sets| then Some(active.value.sets[index]) else None
    }

    method ActiveSet() returns (s: Option<ResultSet>)
      requires Valid()
      ensures s == Current() && (s.Some? ==> Rectangular(s.value))
    {
      if active.None? || index < 0 || index >= |active.value.sets| {
        return None;
      }
      s := Some(active.value.sets[index]);
    }

    /** One cell by position. The row's own width is never checked: it need not be. */
    method CellAt(row: int, column: int) returns (v: Option<ResultValue>)
      requires Valid()
      ensures v.Some? <==>
              Current().Some? && 0 <= row < |Current().value.rows| && 0 <= column < |Current().value.fields|
      ensures v.Some? ==> column < |Current().value.rows[row]| && v.value == Current().value.rows[row][column]
    {
      var s := ActiveSet();
      if s.None? || row < 0 || row >= |s.value.rows| || column < 0 || column >= |s.value.fields| {
        return None;
      }
      v := Some(s.value.rows[row][column]);
    }

    /** One cell by column name: the first column of that name. */
    method CellByName(row: int, name: string) returns (v: Option<ResultValue>)
      requires Valid()
      ensures v.Some? <==> Current().Some? && 0 <= row < |Current().value.rows|
                           && exists c :: 0 <= c < |Current().value.fields| && Current().value.fields[c].name == name
      ensures v.Some? ==> exists c :: 0 <= c < |Current().value.rows[row]| == |Current().value.fields|
                                      && Current().value.fields[c].name == name
                                         && v.value == Current().value.rows[row][c]
                                      && forall d :: 0 <= d < c ==> Current().value.fields[d].name != name
    {
      var s := ActiveSet();
      if s.None? {
        return None;
      }
      var c := FieldIndex(s.value, name);
      if c < 0 {
        return None;
      }
      v := CellAt(row, c);
    }
  }
}
