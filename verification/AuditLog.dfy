/**
  The audit log as the gateway uses it: recording an event, verifying a page,
  and querying with filters and paging. One recording is one atomic step here;
  AuditWriters shows that the advisory lock makes it so.
 */
module AuditLog {
  import opened Options
  import opened AuditRow
  import opened AuditChain

  const MAX_QUERY_LIMIT := 500

  // ----------------------------------------------------------------- filters

  datatype Filters = Filters(
    agentId: Option<string>,
    tool: Option<string>,
    resultStatus: Option<string>,
    since: Option<int>,
    until: Option<int>)

  datatype Column = AgentId | ToolName | ResultStatus | CreatedAt

  datatype Operator = Equals | AtLeast | AtMost

  // `column op $slot`
  datatype Condition = Condition(column: Column, op: Operator, slot: nat)

  datatype Param = Text(s: string) | Time(t: int)

  // An empty string is not a filter.
  predicate Supplied(value: Option<string>) {
    value.Some? && value.value != ""
  }

  // What the caller asked for.
  predicate Matches(f: Filters, row: Row) {
    && (Supplied(f.agentId) ==> row.agentId == f.agentId.value)
    && (Supplied(f.tool) ==> row.toolName == f.tool.value)
    && (Supplied(f.resultStatus) ==> row.resultStatus == f.resultStatus.value)
    && (f.since.Some? ==> f.since.value <= row.createdAt)
    && (f.until.Some? ==> row.createdAt <= f.until.value)
  }

  function Cell(row: Row, column: Column): Param {
    match column
    case AgentId => Text(row.agentId)
    case ToolName => Text(row.toolName)
    case ResultStatus => Text(row.resultStatus)
    case CreatedAt => Time(row.createdAt)
  }

  predicate Bound(clause: seq<Condition>, params: seq<Param>) {
    forall i :: 0 <= i < |clause| ==> 1 <= clause[i].slot <= |params|
  }

  predicate Holds(c: Condition, params: seq<Param>, row: Row)
    requires 1 <= c.slot <= |params|
  {
    var cell, bound := Cell(row, c.column), params[c.slot - 1];
    match c.op
    case Equals => cell == bound
    case AtLeast => cell.Time? && bound.Time? && bound.t <= cell.t
    case AtMost => cell.Time? && bound.Time? && cell.t <= bound.t
  }

  // A row satisfies the WHERE clause: all its conditions, joined by AND.
  predicate Satisfies(clause: seq<Condition>, params: seq<Param>, row: Row)
    requires Bound(clause, params)
  {
    forall i :: 0 <= i < |clause| ==> Holds(clause[i], params, row)
  }

  // Adding a condition on a fresh last parameter narrows the clause by that condition only.
  lemma Narrowed(clause: seq<Condition>, params: seq<Param>, column: Column, op: Operator, value: Param, row: Row)
    requires Bound(clause, params)
    ensures var params' := params + [value];
            var c := Condition(column, op, |params'|);
            && Bound(clause + [c], params')
            && (Satisfies(clause + [c], params', row) <==> Satisfies(clause, params, row) && Holds(c, params', row))
  {
    var params' := params + [value];
    var c := Condition(column, op, |params'|);
    var clause' := clause + [c];
    forall i | 0 <= i < |clause| ensures Holds(clause'[i], params', row) <==> Holds(clause[i], params, row) {
      assert clause'[i] == clause[i];
    }
    assert clause'[|clause|] == c;
    if Satisfies(clause', params', row) {
      forall i | 0 <= i < |clause| ensures Holds(clause[i], params, row) {
        assert Holds(clause'[i], params', row);
      }
    }
  }

  method BuildFilters(f: Filters) returns (clause: seq<Condition>, params: seq<Param>)
    ensures |clause| == |params| && forall i :: 0 <= i < |clause| ==> clause[i].slot == i + 1
    ensures Bound(clause, params)
    ensures forall row :: Satisfies(clause, params, row) <==> Matches(f, row)
  {
    clause, params := [], [];
    var columns := [(AgentId, f.agentId), (ToolName, f.tool), (ResultStatus, f.resultStatus)];
    for i := 0 to |columns|
      invariant |clause| == |params| && forall k :: 0 <= k < |clause| ==> clause[k].slot == k + 1
      invariant Bound(clause, params)
      invariant forall row :: Satisfies(clause, params, row) <==> MatchesText(columns[..i], row)
    {
      var (column, value) := columns[i];
      assert columns[..i + 1] == columns[..i] + [columns[i]];
      forall row ensures MatchesText(columns[..i + 1], row) <==>
                         && MatchesText(columns[..i], row)
                         && (Supplied(value) ==> Cell(row, column) == Text(value.value)) {
        MatchesLast(columns[..i], columns[i], row);
      }
      if Supplied(value) {
        forall row {
          Narrowed(clause, params, column, Equals, Text(value.value), row);
        }
        params := params + [Text(value.value)];
        clause := clause + [Condition(column, Equals, |params|)];
      }
    }
    assert columns[..|columns|] == columns;
    forall row {
      TextFilters(f, row);
    }
    if f.since.Some? {
      forall row {
        Narrowed(clause, params, CreatedAt, AtLeast, Time(f.since.value), row);
      }
      params := params + [Time(f.since.value)];
      clause := clause + [Condition(CreatedAt, AtLeast, |params|)];
    }
    if f.until.Some? {
      forall row {
        Narrowed(clause, params, CreatedAt, AtMost, Time(f.until.value), row);
      }
      params := params + [Time(f.until.value)];
      clause := clause + [Condition(CreatedAt, AtMost, |params|)];
    }
  }

  lemma TextFilters(f: Filters, row: Row)
    ensures MatchesText([(AgentId, f.agentId), (ToolName, f.tool), (ResultStatus, f.resultStatus)], row) <==>
            Matches(f.(since := None, until := None), row)
  {
    var a, b, c := (AgentId, f.agentId), (ToolName, f.tool), (ResultStatus, f.resultStatus);
    var columns := [a, b, c];
    assert columns[0] == a && columns[1] == b && columns[2] == c;
    if Matches(f.(since := None, until := None), row) {
      forall k | 0 <= k < 3 && Supplied(columns[k].1) ensures Cell(row, columns[k].0) == Text(columns[k].1.value) {
      }
    }
  }

  ghost predicate MatchesText(columns: seq<(Column, Option<string>)>, row: Row) {
    forall k :: 0 <= k < |columns| && Supplied(columns[k].1) ==> Cell(row, columns[k].0) == Text(columns[k].1.value)
  }

  lemma MatchesLast(columns: seq<(Column, Option<string>)>, last: (Column, Option<string>), row: Row)
    ensures MatchesText(columns + [last], row) <==>
            MatchesText(columns, row) && (Supplied(last.1) ==> Cell(row, last.0) == Text(last.1.value))
  {
    var all := columns + [last];
    assert all[|columns|] == last;
    if MatchesText(all, row) {
      forall k | 0 <= k < |columns| && Supplied(columns[k].1)
        ensures Cell(row, columns[k].0) == Text(columns[k].1.value)
      {
        assert all[k] == columns[k];
      }
    }
  }

  // ------------------------------------------------------------------ paging

  // `SELECT * ... WHERE clause ORDER BY seq DESC`
  function SelectDesc(t: seq<Row>, clause: seq<Condition>, params: seq<Param>): seq<Row>
    requires Bound(clause, params)
  {
    if t == [] then []
    else SelectDesc(t[1..], clause, params) + if Satisfies(clause, params, t[0]) then [t[0]] else []
  }

  // All the rows asked for, newest first.
  function NewestFirst(t: seq<Row>, f: Filters): seq<Row> {
    if t == [] then []
    else NewestFirst(t[1..], f) + if Matches(f, t[0]) then [t[0]] else []
  }

  lemma {:induction false} SelectsWhatMatches(t: seq<Row>, f: Filters, clause: seq<Condition>, params: seq<Param>)
    requires Bound(clause, params) && forall row :: Satisfies(clause, params, row) <==> Matches(f, row)
    ensures SelectDesc(t, clause, params) == NewestFirst(t, f)
  {
    if t != [] {
      SelectsWhatMatches(t[1..], f, clause, params);
    }
  }

  /** Newest first is every matching row, each once, by strictly falling number. */
  lemma {:induction false} NewestFirstIs(t: seq<Row>, f: Filters)
    requires Ordered(t)
    ensures var s := NewestFirst(t, f);
            && (forall row :: row in s <==> row in t && Matches(f, row))
            && (forall i, j :: 0 <= i < j < |s| ==> s[i].seqNo > s[j].seqNo)
  {
    if t != [] {
      var rest := NewestFirst(t[1..], f);
      NewestFirstIs(t[1..], f);
      assert t == [t[0]] + t[1..];
      forall i | 0 <= i < |rest| ensures rest[i].seqNo > t[0].seqNo {
        assert rest[i] in rest;
        assert rest[i] in t[1..];
      }
    }
  }

  // The event is one that the caller asked for; an empty text asks for nothing.
  predicate Meets(f: Filters, e: AuditEvent) {
    && f.agentId in {None, Some(""), Some(e.agentId)}
    && f.tool in {None, Some(""), Some(e.toolName)}
    && f.resultStatus in {None, Some(""), Some(e.decision)}
    && (f.since.Some? ==> f.since.value <= e.timestamp)
    && (f.until.Some? ==> e.timestamp <= f.until.value)
  }

  /** A row just recorded is found, and found first, by exactly the queries that its event meets. */
  lemma {:induction false} FoundFirst(t: seq<Row>, row: Row, id: string, traceId: Option<string>, e: AuditEvent,
                                      f: Filters)
    requires Reports(row, id, traceId, e)
    ensures NewestFirst(t + [row], f) == (if Meets(f, e) then [row] else []) + NewestFirst(t, f)
  {
    var found := if Meets(f, e) then [row] else [];
    if t == [] {
      assert Matches(f, row) <==> Meets(f, e);
      assert NewestFirst((t + [row])[1..], f) == [];
      assert NewestFirst(t + [row], f) == [] + found;
    } else {
      FoundFirst(t[1..], row, id, traceId, e, f);
      assert (t + [row])[1..] == t[1..] + [row];
      var last := if Matches(f, t[0]) then [t[0]] else [];
      assert found + NewestFirst(t[1..], f) + last == found + (NewestFirst(t[1..], f) + last);
    }
  }

  function Min(a: int, b: int): int {
    if a < b then a else b
  }

  function Max(a: int, b: int): int {
    if a < b then b else a
  }

  function ClampLimit(limit: int): (n: int)
    ensures 1 <= n <= MAX_QUERY_LIMIT
    ensures 1 <= limit <= MAX_QUERY_LIMIT ==> n == limit
    ensures (limit < 1 ==> n == 1) && (limit > 500 ==> n == 500)
  {
    Max(1, Min(limit, MAX_QUERY_LIMIT))
  }

  // `LIMIT limit OFFSET offset`
  function PageOf(s: seq<Row>, limit: nat, offset: nat): seq<Row> {
    s[Min(offset, |s|)..Min(offset + limit, |s|)]
  }

  // The page starts at row `offset`, skips nothing, and is short only where the rows end.
  ghost predicate IsPage(page: seq<Row>, s: seq<Row>, limit: nat, offset: nat) {
    && |page| == (if |s| <= offset then 0 else if |s| - offset < limit then |s| - offset else limit)
    && forall j :: 0 <= j < |page| ==> page[j] == s[offset + j]
  }

  lemma PageOfIsPage(s: seq<Row>, limit: nat, offset: nat)
    ensures IsPage(PageOf(s, limit, offset), s, limit, offset)
  {
  }

  function Pages(s: seq<Row>, limit: nat, n: nat): seq<Row> {
    if n == 0 then [] else Pages(s, limit, n - 1) + PageOf(s, limit, (n - 1) * limit)
  }

  /** Pages stepped by the limit partition the rows: none is skipped and none comes twice. */
  lemma {:induction false} PagesPartition(s: seq<Row>, limit: nat, n: nat)
    ensures Pages(s, limit, n) == s[..Min(n * limit, |s|)]
    ensures n * limit >= |s| ==> Pages(s, limit, n) == s
  {
    if n > 0 {
      PagesPartition(s, limit, n - 1);
      assert n * limit == (n - 1) * limit + limit;
      var a, b := Min((n - 1) * limit, |s|), Min(n * limit, |s|);
      assert a <= b;
      assert s[..b] == s[..a] + s[a..b];
    }
  }

  // --------------------------------------------------------------------- log

  function InsertRow(row: Row, rows: seq<Row>): seq<Row> {
    if rows == [] || row.seqNo <= rows[0].seqNo then [row] + rows
    else [rows[0]] + InsertRow(row, rows[1..])
  }

  // `sorted(rows, key=lambda r: r["seq"])`
  function SortRows(rows: seq<Row>): seq<Row> {
    if rows == [] then [] else InsertRow(rows[0], SortRows(rows[1..]))
  }

  ghost predicate Ascending(rows: seq<Row>) {
    forall i, j :: 0 <= i < j < |rows| ==> rows[i].seqNo <= rows[j].seqNo
  }

  lemma {:induction false} InsertRowSorts(row: Row, rows: seq<Row>)
    requires Ascending(rows)
    ensures Ascending(InsertRow(row, rows))
    ensures forall x :: x in InsertRow(row, rows) <==> x == row || x in rows
  {
    if rows != [] && row.seqNo > rows[0].seqNo {
      var rest := InsertRow(row, rows[1..]);
      InsertRowSorts(row, rows[1..]);
      assert rows == [rows[0]] + rows[1..];
      forall j | 0 <= j < |rest| ensures rows[0].seqNo <= rest[j].seqNo {
        assert rest[j] in rest;
      }
    }
  }

  lemma {:induction false} SortRowsSorts(rows: seq<Row>)
    ensures Ascending(SortRows(rows))
    ensures forall x :: x in SortRows(rows) <==> x in rows
  {
    if rows != [] {
      SortRowsSorts(rows[1..]);
      InsertRowSorts(rows[0], SortRows(rows[1..]));
      assert rows == [rows[0]] + rows[1..];
    }
  }

  lemma {:induction false} InsertRowKeeps(row: Row, rows: seq<Row>)
    ensures multiset(InsertRow(row, rows)) == multiset([row]) + multiset(rows)
  {
    if rows != [] && row.seqNo > rows[0].seqNo {
      InsertRowKeeps(row, rows[1..]);
      assert rows == [rows[0]] + rows[1..];
    }
  }

  // Sorting gives the same rows, each as often, in ascending order.
  lemma {:induction false} SortRowsPermutes(rows: seq<Row>)
    ensures Ascending(SortRows(rows)) && multiset(SortRows(rows)) == multiset(rows)
  {
    SortRowsSorts(rows);
    if rows != [] {
      SortRowsPermutes(rows[1..]);
      InsertRowKeeps(rows[0], SortRows(rows[1..]));
      assert rows == [rows[0]] + rows[1..];
    }
  }

  class Log {
    const platform: Platform
    var table: seq<Row>
    var nextSeq: int

    constructor (platform: Platform)
      requires platform.Valid()
      ensures Valid() && table == [] && nextSeq == 1 && this.platform == platform
    {
      this.platform := platform;
      table, nextSeq := [], 1;
    }

    ghost predicate Valid()
      reads this
    {
      && platform.Valid()
      && Chained(platform, table)
      && Fresh(table, nextSeq)
    }

    method RecordToolCall(id: string, traceId: Option<string>, e: AuditEvent)
      requires Valid() && Recordable(e)
      modifies this
      ensures Valid()
      ensures nextSeq == old(nextSeq) + 1
      ensures table == old(table) + [NewRow(platform, old(nextSeq), id, traceId, PrevHash(old(table), |old(table)|), e)]
      ensures |table| == |old(table)| + 1 && table[..|old(table)|] == old(table)
      ensures var row := table[|old(table)|];
              && row.seqNo == old(nextSeq) && Reports(row, id, traceId, e)
              && row.rowHash == RowHash(platform, PrevHash(old(table), |old(table)|), row)
      ensures forall f :: NewestFirst(table, f) ==
                (if Meets(f, e) then [table[|old(table)|]] else []) + NewestFirst(old(table), f)
      ensures old(GapFree(table) && nextSeq == |table| + 1) ==> GapFree(table) && nextSeq == |table| + 1
    {
      hide NewRow, RowHash, Reports, Meets, NewestFirst;
      var prev := if table == [] then GENESIS_HASH else table[|table| - 1].rowHash;
      var row := NewRow(platform, nextSeq, id, traceId, prev, e);
      Appended(platform, table, row, nextSeq, id, traceId, prev, e);
      NewRowReports(platform, nextSeq, id, traceId, prev, e);
      StoredRowHashesAlike(platform, nextSeq, id, traceId, prev, e);
      forall f ensures NewestFirst(table + [row], f) == (if Meets(f, e) then [row] else []) + NewestFirst(table, f) {
        FoundFirst(table, row, id, traceId, e, f);
      }
      nextSeq := nextSeq + 1;
      table := table + [row];
    }

    // Rows may come in any order, and the table may have been tampered with.
    method VerifyRows(page: seq<Row>) returns (v: Verdict)
      ensures IsVerdict(platform, table, page, v)
    {
      hide RowHash;
      var rows := SortRows(page);
      SortRowsSorts(page);
      for i := 0 to |rows|
        invariant forall k :: 0 <= k < i ==> RowPasses(platform, table, rows[k])
      {
        var row := rows[i];
        var prevHash: string;
        if row.seqNo == 1 {
          prevHash := GENESIS_HASH;
        } else {
          match HashAt(table, row.seqNo - 1) {
            case None =>
              FirstFailure(platform, table, page, rows, i);
              return FailAt(row.seqNo);
            case Some(hash) => prevHash := hash;
          }
        }
        if RowHash(platform, prevHash, row) != row.rowHash {
          FirstFailure(platform, table, page, rows, i);
          return FailAt(row.seqNo);
        }
      }
      forall i | 0 <= i < |page| ensures RowPasses(platform, table, page[i]) {
        assert page[i] in page;
        var k :| 0 <= k < |rows| && rows[k] == page[i];
      }
      return Pass;
    }

    method QueryAuditLog(f: Filters, limit: int, offset: int) returns (total: nat, rows: seq<Row>, v: Verdict)
      ensures total == |NewestFirst(table, f)|
      ensures rows == PageOf(NewestFirst(table, f), ClampLimit(limit), Max(0, offset))
      ensures IsPage(rows, NewestFirst(table, f),
                     if limit < 1 then 1 else if limit > 500 then 500 else limit, if offset < 0 then 0 else offset)
      ensures |rows| <= MAX_QUERY_LIMIT
      ensures IsVerdict(platform, table, rows, v)
    {
      var n, start := ClampLimit(limit), Max(0, offset);
      var clause, params := BuildFilters(f);
      var selected := SelectDesc(table, clause, params);
      SelectsWhatMatches(table, f, clause, params);
      total := |selected|;
      rows := PageOf(selected, n, start);
      PageOfIsPage(selected, n, start);
      v := VerifyRows(rows);
    }
  }

  // `n` is a number the sequence has not given out yet.
  ghost predicate Fresh(t: seq<Row>, n: int) {
    n >= 1 && forall i :: 0 <= i < |t| ==> t[i].seqNo < n
  }

  lemma Appended(p: Platform, t: seq<Row>, row: Row, n: int, id: string, traceId: Option<string>, prev: string,
                 e: AuditEvent)
    requires p.Valid() && Chained(p, t) && Fresh(t, n) && Recordable(e)
    requires prev == PrevHash(t, |t|) && row == NewRow(p, n, id, traceId, prev, e)
    ensures Chained(p, t + [row]) && Fresh(t + [row], n + 1)
    ensures GapFree(t) && n == |t| + 1 ==> GapFree(t + [row])
  {
    hide RowHash, Recordable;
    var u := t + [row];
    StoredRowHashesAlike(p, n, id, traceId, prev, e);
    assert row.seqNo == n;
    forall i | 0 <= i < |u| ensures LinkedAt(p, u, i) {
      assert i < |t| ==> LinkedAt(p, t, i);
      assert PrevHash(u, i) == PrevHash(t, i);
    }
  }

  // The first failing row of a sorted page is the verdict.
  lemma FirstFailure(p: Platform, t: seq<Row>, page: seq<Row>, rows: seq<Row>, i: nat)
    requires Ascending(rows) && i < |rows| && (forall x :: x in rows <==> x in page)
    requires !RowPasses(p, t, rows[i]) && forall k :: 0 <= k < i ==> RowPasses(p, t, rows[k])
    ensures IsVerdict(p, t, page, FailAt(rows[i].seqNo))
  {
    hide RowPasses;
    assert rows[i] in page;
    forall j | 0 <= j < |page| && page[j].seqNo < rows[i].seqNo ensures RowPasses(p, t, page[j]) {
      assert page[j] in page;
      var k :| 0 <= k < |rows| && rows[k] == page[j];
    }
  }
}
