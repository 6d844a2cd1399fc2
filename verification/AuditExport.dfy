/**
  NDJSON export of the audit log: the streamed body, the body the daily script
  uploads, and the day windows the script is run for.
 */
module AuditExport {
  import opened Options
  import opened Json
  import opened JsonText
  import opened JsonOrder
  import opened AuditRow
  import opened AuditChain

  // ----------------------------------------------------------------- row text

  function OrNull(s: Option<string>): Value {
    if s.Some? then Str(s.value) else Null
  }

  function RowToJson(p: Platform, row: Row): Value {
    Obj([Field("id", Str(row.id)),
         Field("seq", Int(row.seqNo)),
         Field("agent_id", Str(row.agentId)),
         Field("role", Str(row.role)),
         Field("tool_name", Str(row.toolName)),
         Field("args", row.args),
         Field("policy_decision", Obj([Field("reason", OrNull(row.reason))])),
         Field("approval_id", OrNull(row.approvalId)),
         Field("result_status", Str(row.resultStatus)),
         Field("result_summary", Result(row)),
         Field("duration_ms", if row.durationMs.Some? then Int(row.durationMs.value) else Null),
         Field("otel_trace_id", OrNull(row.traceId)),
         Field("row_hash", Str(row.rowHash)),
         Field("created_at", Str(p.iso(row.createdAt)))])
  }

  function Line(p: Platform, row: Row): string {
    Dumps(RowToJson(p, row))
  }

  function Lines(p: Platform, rows: seq<Row>): seq<string> {
    seq(|rows|, i requires 0 <= i < |rows| => Line(p, rows[i]))
  }

  // ------------------------------------------------------------------- bodies

  // `WHERE created_at >= $1 AND created_at <= $2 ORDER BY seq ASC`
  function Exported(t: seq<Row>, since: int, until: int): seq<Row> {
    if t == [] then []
    else (if since <= t[0].createdAt <= until then [t[0]] else []) + Exported(t[1..], since, until)
  }

  // What the streaming endpoint sends: every line with its line break, one after the other.
  function Streamed(lines: seq<string>): string {
    if lines == [] then "" else lines[0] + "\n" + Streamed(lines[1..])
  }

  // `"\n".join(lines)`
  function Join(lines: seq<string>): string {
    if lines == [] then ""
    else if |lines| == 1 then lines[0]
    else lines[0] + "\n" + Join(lines[1..])
  }

  // What the script uploads.
  function Collected(lines: seq<string>): string {
    Join(lines) + if lines == [] then "" else "\n"
  }

  /** The uploaded body is the streamed body. */
  lemma {:induction false} CollectedIsStreamed(lines: seq<string>)
    ensures Collected(lines) == Streamed(lines)
  {
    if |lines| == 1 {
      assert Streamed(lines[1..]) == "";
      assert lines[0] + "\n" + "" == lines[0] + "\n";
    } else if |lines| > 1 {
      CollectedIsStreamed(lines[1..]);
      assert lines[0] + "\n" + Join(lines[1..]) + "\n" == lines[0] + "\n" + (Join(lines[1..]) + "\n");
    }
  }

  // `body.split("\n")` without the empty piece after the last line break.
  function SplitLines(body: string): seq<string>
    decreases |body|
  {
    if body == "" then []
    else
      var n := LineEnd(body);
      [body[..n]] + if n < |body| then SplitLines(body[n + 1..]) else []
  }

  function LineEnd(body: string): (n: nat)
    ensures n <= |body| && (forall i :: 0 <= i < n ==> body[i] != '\n') && (n < |body| ==> body[n] == '\n')
  {
    if body == "" || body[0] == '\n' then 0 else 1 + LineEnd(body[1..])
  }

  // `body.count("\n")`
  function CountBreaks(body: string): nat {
    if body == "" then 0 else (if body[0] == '\n' then 1 else 0) + CountBreaks(body[1..])
  }

  ghost predicate Unbroken(line: string) {
    '\n' !in line
  }

  lemma {:induction false} CountConcat(a: string, b: string)
    ensures CountBreaks(a + b) == CountBreaks(a) + CountBreaks(b)
  {
    if a == "" {
      assert a + b == b;
    } else {
      CountConcat(a[1..], b);
      assert (a + b)[1..] == a[1..] + b;
    }
  }

  lemma {:induction false} UnbrokenCount(line: string)
    requires Unbroken(line)
    ensures CountBreaks(line) == 0
  {
    if line != "" {
      assert line == [line[0]] + line[1..];
      UnbrokenCount(line[1..]);
    }
  }

  // Splitting a body of unbroken lines gives the lines back, and its breaks count them.
  lemma {:induction false} StreamedSplits(lines: seq<string>)
    requires forall i :: 0 <= i < |lines| ==> Unbroken(lines[i])
    ensures SplitLines(Streamed(lines)) == lines
    ensures CountBreaks(Streamed(lines)) == |lines|
  {
    if lines != [] {
      var line, rest := lines[0], Streamed(lines[1..]);
      var body := line + "\n" + rest;
      StreamedSplits(lines[1..]);
      FirstBreak(line, rest);
      assert body[..|line|] == line && body[|line| + 1..] == rest;
      assert [line] + lines[1..] == lines;
      UnbrokenCount(line);
      CountConcat(line + "\n", rest);
      CountConcat(line, "\n");
    }
  }

  lemma FirstBreak(line: string, rest: string)
    requires Unbroken(line)
    ensures LineEnd(line + "\n" + rest) == |line|
  {
    var body := line + "\n" + rest;
    assert body[|line|] == '\n';
    assert forall i :: 0 <= i < |line| ==> body[i] == line[i] && line[i] in line;
  }

  // ---------------------------------------------------------------- round trip

  ghost predicate Exportable(row: Row) {
    IsJson(row.args) && IsJson(Result(row))
  }

  lemma RowJsonIsJson(p: Platform, row: Row)
    requires Exportable(row)
    ensures IsJson(RowToJson(p, row))
  {
    var fields := RowToJson(p, row).fields;
    KeysDistinct(p, row);
    forall i | 0 <= i < |fields| ensures IsJson(fields[i].value) {
    }
  }

  lemma KeysDistinct(p: Platform, row: Row)
    ensures DistinctKeys(RowToJson(p, row).fields)
  {
    var fields := RowToJson(p, row).fields;
    assert fields[0].key == "id" && fields[1].key == "seq" && fields[2].key == "agent_id" && fields[3].key == "role";
    assert fields[4].key == "tool_name" && fields[5].key == "args" && fields[6].key == "policy_decision";
    assert fields[7].key == "approval_id" && fields[8].key == "result_status" && fields[9].key == "result_summary";
    assert fields[10].key == "duration_ms" && fields[11].key == "otel_trace_id";
    assert fields[12].key == "row_hash" && fields[13].key == "created_at";
  }

  // The value under a key, for an object whose keys are distinct.
  ghost predicate Holds(v: Value, key: string, w: Value) {
    v.Obj? && Field(key, w) in v.fields
  }

  // A text or null, for an optional text.
  ghost predicate HoldsText(v: Value, key: string, s: Option<string>) {
    if s.Some? then Holds(v, key, Str(s.value)) else Holds(v, key, Null)
  }

  // Under each of its fourteen keys the object has the column of the row that the key names.
  ghost predicate ShowsRow(p: Platform, v: Value, row: Row) {
    v.Obj? && DistinctKeys(v.fields) && |v.fields| == 14 && ShowsCall(v, row) && ShowsOutcome(p, v, row)
  }

  ghost predicate ShowsCall(v: Value, row: Row) {
    && Holds(v, "id", Str(row.id)) && Holds(v, "seq", Int(row.seqNo))
    && Holds(v, "agent_id", Str(row.agentId)) && Holds(v, "role", Str(row.role))
    && Holds(v, "tool_name", Str(row.toolName)) && Holds(v, "args", row.args)
    && Holds(v, "policy_decision", Obj([Field("reason", if row.reason.Some? then Str(row.reason.value) else Null)]))
  }

  ghost predicate ShowsOutcome(p: Platform, v: Value, row: Row) {
    && HoldsText(v, "approval_id", row.approvalId) && Holds(v, "result_status", Str(row.resultStatus))
    && Holds(v, "result_summary", if row.resultSummary.Some? then row.resultSummary.value else Null)
    && Holds(v, "duration_ms", if row.durationMs.Some? then Int(row.durationMs.value) else Null)
    && HoldsText(v, "otel_trace_id", row.traceId) && Holds(v, "row_hash", Str(row.rowHash))
    && Holds(v, "created_at", Str(p.iso(row.createdAt)))
  }

  lemma RowJsonShows(p: Platform, row: Row)
    ensures ShowsRow(p, RowToJson(p, row), row)
  {
    hide DistinctKeys, ShowsCall, ShowsOutcome;
    KeysDistinct(p, row);
    RowJsonShowsCall(p, row);
    RowJsonShowsOutcome(p, row);
  }

  lemma RowJsonShowsCall(p: Platform, row: Row)
    ensures ShowsCall(RowToJson(p, row), row)
  {
    var f := RowToJson(p, row).fields;
    assert f[0] in f && f[1] in f && f[2] in f && f[3] in f && f[4] in f && f[5] in f && f[6] in f;
  }

  lemma RowJsonShowsOutcome(p: Platform, row: Row)
    ensures ShowsOutcome(p, RowToJson(p, row), row)
  {
    var f := RowToJson(p, row).fields;
    assert f[7] in f && f[8] in f && f[9] in f && f[10] in f && f[11] in f && f[12] in f && f[13] in f;
  }

  /**
    Both bodies are one; cut at its line breaks it gives one text for each
    exported row, in order, and each text reads back as that row's JSON, which shows
    every column under its key.
   */
  lemma ExportRoundTrip(p: Platform, rows: seq<Row>)
    requires forall i :: 0 <= i < |rows| ==> Exportable(rows[i])
    ensures var body := Collected(Lines(p, rows));
            && body == Streamed(Lines(p, rows))
            && CountBreaks(body) == |rows|
            && |SplitLines(body)| == |rows|
            && forall i :: 0 <= i < |rows| ==>
                 && Loads(SplitLines(body)[i]) == Got(RowToJson(p, rows[i]), [])
                 && ShowsRow(p, RowToJson(p, rows[i]), rows[i])
  {
    hide Dumps, Loads, RowToJson, ShowsRow;
    var lines := Lines(p, rows);
    CollectedIsStreamed(lines);
    forall i | 0 <= i < |lines| ensures Unbroken(lines[i]) {
      DumpsPrintable(RowToJson(p, rows[i]));
    }
    StreamedSplits(lines);
    forall i | 0 <= i < |rows|
      ensures Loads(lines[i]) == Got(RowToJson(p, rows[i]), []) && ShowsRow(p, RowToJson(p, rows[i]), rows[i])
    {
      RowJsonShows(p, rows[i]);
      RowJsonIsJson(p, rows[i]);
      LoadsDumps(RowToJson(p, rows[i]));
    }
  }

  /** A row the log recorded can be exported. */
  lemma RecordedIsExportable(p: Platform, n: int, id: string, traceId: Option<string>, prev: string, e: AuditEvent)
    requires p.Valid() && Recordable(e)
    ensures Exportable(NewRow(p, n, id, traceId, prev, e))
  {
  }

  /** An export is the rows of its range, each once, by rising number. */
  lemma {:induction false} ExportedIs(t: seq<Row>, since: int, until: int)
    requires Ordered(t)
    ensures var s := Exported(t, since, until);
            && (forall row :: row in s <==> row in t && since <= row.createdAt <= until)
            && Ordered(s)
  {
    if t != [] {
      ExportedIs(t[1..], since, until);
      HeadAndTail(t, Exported(t[1..], since, until));
    }
  }

  lemma HeadAndTail(t: seq<Row>, rest: seq<Row>)
    requires Ordered(t) && t != [] && Ordered(rest) && forall row :: row in rest ==> row in t[1..]
    ensures Ordered([t[0]] + rest)
    ensures forall row :: row in t <==> row == t[0] || row in t[1..]
  {
    assert t == [t[0]] + t[1..];
    forall i | 0 <= i < |rest| ensures t[0].seqNo < rest[i].seqNo {
      assert rest[i] in t[1..];
    }
  }

  // ---------------------------------------------------------------- day windows

  const DAY := 86_400_000_000

  // `_prior_utc_day()` at time `now`: yesterday's midnight and today's.
  function PriorUtcDay(now: int): (int, int) {
    var midnight := now - now % DAY;
    (midnight - DAY, midnight)
  }

  ghost predicate InWindow(w: (int, int), time: int) {
    w.0 <= time <= w.1
  }

  /** Run on every day from `first` to `last`, at any time of each day, the script has
      exported a row exactly on the day after the row's own, and, if the row was written
      on the stroke of midnight, on its own day too. */
  lemma DailyRunsCover(runs: seq<int>, first: int, time: int, d: nat)
    requires forall i :: 0 <= i < |runs| ==> runs[i] / DAY == first + i
    requires d < |runs|
    ensures InWindow(PriorUtcDay(runs[d]), time) <==>
            first + d == time / DAY + 1 || (time % DAY == 0 && first + d == time / DAY)
  {
    var now := runs[d];
    var day, of := now / DAY, time / DAY;
    assert now == day * DAY + now % DAY;
    assert time == of * DAY + time % DAY;
    WindowOfDay(day, of, time % DAY);
  }

  lemma WindowOfDay(day: int, of: int, rest: int)
    requires 0 <= rest < DAY
    ensures (day - 1) * DAY <= of * DAY + rest <= day * DAY <==> day == of + 1 || (rest == 0 && day == of)
  {
  }

  /** Consecutive daily runs miss no row and export twice exactly the rows written at a midnight. */
  lemma ExportedTwiceIffMidnight(runs: seq<int>, first: int, time: int)
    requires forall i :: 0 <= i < |runs| ==> runs[i] / DAY == first + i
    requires first <= time / DAY && time / DAY + 1 < first + |runs|
    ensures exists d :: 0 <= d < |runs| && InWindow(PriorUtcDay(runs[d]), time)
    ensures (exists d, e :: 0 <= d < e < |runs| &&
               InWindow(PriorUtcDay(runs[d]), time) && InWindow(PriorUtcDay(runs[e]), time))
       <==> time % DAY == 0
  {
    forall d | 0 <= d < |runs| {
      DailyRunsCover(runs, first, time, d);
    }
    var d := time / DAY - first;
    assert InWindow(PriorUtcDay(runs[d + 1]), time);
    assert time % DAY == 0 ==> InWindow(PriorUtcDay(runs[d]), time);
  }
}
