/**
  One row of the audit table and the text its hash is computed over.

  The text is a plain concatenation without delimiters. It still determines
  every covered field: this module proves exactly what two equal texts share.
 */
module AuditRow {
  import opened Options
  import opened Json
  import opened JsonText
  import opened JsonOrder

  // Sixty-four zeros, in place of the hash of a row before the first.
  const GENESIS_HASH: string := Zeros(64)

  function Zeros(n: nat): (s: string)
    ensures |s| == n && forall i :: 0 <= i < n ==> s[i] == '0'
  {
    if n == 0 then [] else Zeros(n - 1) + ['0']
  }

  const TOOLS: set<string> := {
    "list_pods", "get_pod_logs", "get_deployment_status", "restart_deployment", "scale_deployment",
    "exec_into_pod", "apply_k8s_manifest", "query_terraform_plan", "trigger_jenkins_job",
    "get_jenkins_job_status", "read_prometheus_metrics", "open_ticket", "read_ticket"
  }

  // A row of `audit_log`; times are microseconds since an epoch, in UTC.
  datatype Row = Row(
    seqNo: int,
    id: string,
    agentId: string,
    role: string,
    toolName: string,
    args: Value,
    reason: Option<string>,
    approvalId: Option<string>,
    resultStatus: string,
    resultSummary: Option<Value>,
    durationMs: Option<int>,
    traceId: Option<string>,
    rowHash: string,
    createdAt: int)

  // What the audit log takes from outside: the digest, the ISO form of a time,
  // and what a jsonb column gives back for a stored value.
  datatype Platform = Platform(sha256: string -> string, iso: int -> string, jsonb: Value -> Value)
  {
    ghost predicate Valid() {
      && (forall text :: |sha256(text)| == 64)
      && (forall s, t :: iso(s) == iso(t) ==> s == t)
      && (forall v :: Distinct(v) ==> IsJson(jsonb(v)) && Equivalent(v, jsonb(v)))
    }
  }

  function Payload(prev: string, id: string, agentId: string, toolName: string,
                   args: Value, result: Value, createdAt: string): string
  {
    prev + id + agentId + toolName + SortedText(args) + SortedText(result) + createdAt
  }

  // SQL NULL reads back as None, which prints like a JSON null.
  function Result(row: Row): Value {
    match row.resultSummary
    case None => Null
    case Some(v) => v
  }

  // The text hashed for a row that follows a row with hash `prev`.
  function RowPayload(p: Platform, prev: string, row: Row): string {
    Payload(prev, row.id, row.agentId, row.toolName, row.args, Result(row), p.iso(row.createdAt))
  }

  function RowHash(p: Platform, prev: string, row: Row): string {
    p.sha256(RowPayload(p, prev, row))
  }

  // What the gateway writes: a 36-character uuid, a registered tool, object
  // arguments and an object result or none, for an agent id without '{'.
  ghost predicate WellFormed(row: Row) {
    && |row.id| == 36
    && '{' !in row.agentId
    && row.toolName in TOOLS
    && row.args.Obj? && Distinct(row.args)
    && (Result(row).Null? || Result(row).Obj?) && Distinct(Result(row))
  }

  // The fields the hash covers, up to the order of JSON keys.
  ghost predicate SameCovered(r: Row, s: Row) {
    && r.id == s.id
    && r.agentId == s.agentId
    && r.toolName == s.toolName
    && Equivalent(r.args, s.args)
    && Equivalent(Result(r), Result(s))
    && r.createdAt == s.createdAt
  }

  // ------------------------------------------------------- taking a text apart

  lemma Front(a: string, x: string, b: string, y: string)
    requires a + x == b + y && |a| == |b|
    ensures a == b && x == y
  {
    assert a == (a + x)[..|a|] && b == (b + y)[..|b|];
    assert x == (a + x)[|a|..] && y == (b + y)[|b|..];
  }

  // Two texts that start an object at their first brace are cut at the same place.
  lemma CutAtBrace(a: string, x: string, b: string, y: string)
    requires a + x == b + y
    requires '{' !in a && '{' !in b && x != [] && y != [] && x[0] == y[0] == '{'
    ensures a == b && x == y
  {
    var t := a + x;
    assert t[|a|] == '{' && forall i :: 0 <= i < |a| ==> t[i] == a[i] && a[i] in a;
    assert t == b + y && t[|b|] == '{' && forall i :: 0 <= i < |b| ==> t[i] == b[i] && b[i] in b;
    assert |a| == |b|;
    Front(a, x, b, y);
  }

  // Equal strings agree position by position from the end.
  lemma FromTheEnd(a: string, x: string, b: string, y: string, k: nat)
    requires a + x == b + y && 0 < k <= |x| && k <= |y|
    ensures x[|x| - k] == y[|y| - k]
  {
    assert (a + x)[|a + x| - k] == x[|x| - k];
    assert (b + y)[|b + y| - k] == y[|y| - k];
  }

  predicate End(x: string, last: char, third: char, eighth: char) {
    |x| >= 8 && x[|x| - 1] == last && x[|x| - 3] == third && x[|x| - 8] == eighth
  }

  // Three characters near its end tell every tool from the others, but for the two deployments.
  lemma ToolEndings(x: string)
    requires x in TOOLS
    ensures |x| >= 8
    ensures End(x, 's', 'o', 'i') <==> x == "list_pods"
    ensures End(x, 's', 'o', 'p') <==> x == "get_pod_logs"
    ensures End(x, 's', 't', 't') <==> x == "get_deployment_status"
    ensures End(x, 't', 'e', 'p') <==> x == "restart_deployment" || x == "scale_deployment"
    ensures End(x, 'd', 'p', 'i') <==> x == "exec_into_pod"
    ensures End(x, 't', 'e', 'm') <==> x == "apply_k8s_manifest"
    ensures End(x, 'n', 'l', 'o') <==> x == "query_terraform_plan"
    ensures End(x, 'b', 'j', 'k') <==> x == "trigger_jenkins_job"
    ensures End(x, 's', 't', 'b') <==> x == "get_jenkins_job_status"
    ensures End(x, 's', 'i', '_') <==> x == "read_prometheus_metrics"
    ensures End(x, 't', 'k', 'n') <==> x == "open_ticket"
    ensures End(x, 't', 'k', 'd') <==> x == "read_ticket"
    ensures x == "restart_deployment" ==> |x| >= 12 && x[|x| - 12] == 't'
    ensures x == "scale_deployment" ==> |x| >= 12 && x[|x| - 12] == 'e'
  {
  }

  lemma ToolsAreLong(x: string)
    requires x in TOOLS
    ensures |x| >= 8
  {
  }

  lemma SameTool(x: string, y: string)
    requires x in TOOLS && y in TOOLS && |x| >= 8 && |y| >= 8
    requires End(y, x[|x| - 1], x[|x| - 3], x[|x| - 8])
    requires |x| >= 12 && |y| >= 12 ==> x[|x| - 12] == y[|y| - 12]
    ensures x == y
  {
    ToolEndings(x);
    ToolEndings(y);
  }

  lemma SameEndings(a: string, x: string, b: string, y: string)
    requires a + x == b + y && |x| >= 8 && |y| >= 8
    ensures End(y, x[|x| - 1], x[|x| - 3], x[|x| - 8])
    ensures |x| >= 12 && |y| >= 12 ==> x[|x| - 12] == y[|y| - 12]
  {
    FromTheEnd(a, x, b, y, 1);
    FromTheEnd(a, x, b, y, 3);
    FromTheEnd(a, x, b, y, 8);
    if |x| >= 12 && |y| >= 12 {
      FromTheEnd(a, x, b, y, 12);
    }
  }

  lemma SameTail(a: string, b: string, x: string)
    requires a + x == b + x
    ensures a == b
  {
    assert |a + x| == |a| + |x| && |b + x| == |b| + |x|;
    Front(a, x, b, x);
  }

  // No registered tool name is the tail of another.
  lemma ToolsAreSuffixFree(a: string, x: string, b: string, y: string)
    requires a + x == b + y && x in TOOLS && y in TOOLS
    ensures x == y && a == b
  {
    ToolsAreLong(x);
    ToolsAreLong(y);
    SameEndings(a, x, b, y);
    SameTool(x, y);
    SameTail(a, b, x);
  }

  lemma ToolsHaveNoBrace(x: string)
    requires x in TOOLS
    ensures '{' !in x
  {
  }

  // ------------------------------------------------------ what equal texts share

  // The text after the tool name.
  function JsonPart(args: Value, result: Value, createdAt: string): string {
    SortedText(args) + (SortedText(result) + createdAt)
  }

  lemma PayloadParts(prev: string, id: string, agentId: string, toolName: string,
                     args: Value, result: Value, createdAt: string)
    ensures Payload(prev, id, agentId, toolName, args, result, createdAt) ==
            prev + (id + ((agentId + toolName) + JsonPart(args, result, createdAt)))
  {
    var a, r := SortedText(args), SortedText(result);
    assert prev + id + agentId + toolName + a + r + createdAt ==
           prev + (id + ((agentId + toolName) + (a + (r + createdAt))));
  }

  lemma JsonPartStart(args: Value, result: Value, createdAt: string)
    requires args.Obj?
    ensures JsonPart(args, result, createdAt) != [] && JsonPart(args, result, createdAt)[0] == '{'
  {
  }

  // What is legible in the text: a uuid, no brace before the arguments, and arguments that are an object.
  ghost predicate Legible(row: Row) {
    && |row.id| == 36
    && '{' !in row.agentId + row.toolName
    && row.args.Obj? && Distinct(row.args) && Distinct(Result(row))
  }

  // What the gateway writes is legible, with a result that is no number.
  lemma WellFormedIsLegible(row: Row)
    requires WellFormed(row)
    ensures Legible(row) && !Result(row).Int?
  {
    ToolsHaveNoBrace(row.toolName);
  }

  // Covered fields agree, taking agent id and tool name as one part.
  ghost predicate SameButCut(r: Row, s: Row) {
    && r.id == s.id
    && r.agentId + r.toolName == s.agentId + s.toolName
    && Equivalent(r.args, s.args)
    && Equivalent(Result(r), Result(s))
    && r.createdAt == s.createdAt
  }

  // A number's text begins as no other value's does.
  lemma NumberShows(v: Value, x: string, w: Value, y: string)
    requires v.Int? && !w.Int?
    ensures SortedText(v) + x != SortedText(w) + y
  {
    FirstOfSorted(v);
    FirstOfSorted(w);
    assert (SortedText(v) + x)[0] == SortedText(v)[0] && (SortedText(w) + y)[0] == SortedText(w)[0];
  }

  lemma FirstOfSorted(v: Value)
    ensures SortedText(v) != []
    ensures v.Int? <==> SortedText(v)[0] == '-' || IsDigit(SortedText(v)[0])
  {
    if v.Int? {
      NatTextReads(if v.n < 0 then -v.n else v.n);
    }
  }

  // The results and the times behind them, in equal texts.
  lemma ResultDecodes(v: Value, t1: string, w: Value, t2: string)
    requires Distinct(v) && Distinct(w) && (v.Int? ==> !w.Int?)
    requires SortedText(v) + t1 == SortedText(w) + t2
    ensures Equivalent(v, w) && t1 == t2
  {
    if v.Int? {
      NumberShows(v, t1, w, t2);
    } else if w.Int? {
      NumberShows(w, t2, v, t1);
    } else {
      PrefixFree(v, t1, w, t2);
    }
  }

  /**
    The undelimited text is uniquely decodable up to the cut between agent id and
    tool name: without '{' in either, two texts are equal exactly when every part
    is, taking agent id and tool name as one part.
   */
  lemma PayloadDecodes(p1: string, p2: string, r: Row, s: Row, t1: string, t2: string)
    requires |p1| == |p2| && Legible(r) && Legible(s) && (Result(r).Int? ==> !Result(s).Int?)
    ensures Payload(p1, r.id, r.agentId, r.toolName, r.args, Result(r), t1) ==
            Payload(p2, s.id, s.agentId, s.toolName, s.args, Result(s), t2)
       <==> && p1 == p2 && r.id == s.id
            && r.agentId + r.toolName == s.agentId + s.toolName
            && Equivalent(r.args, s.args) && Equivalent(Result(r), Result(s))
            && t1 == t2
  {
    var x := JsonPart(r.args, Result(r), t1);
    var y := JsonPart(s.args, Result(s), t2);
    PayloadParts(p1, r.id, r.agentId, r.toolName, r.args, Result(r), t1);
    PayloadParts(p2, s.id, s.agentId, s.toolName, s.args, Result(s), t2);
    JsonPartStart(r.args, Result(r), t1);
    JsonPartStart(s.args, Result(s), t2);
    SameTextIffEquivalent(r.args, s.args);
    SameTextIffEquivalent(Result(r), Result(s));
    var m, n := r.agentId + r.toolName, s.agentId + s.toolName;
    if p1 + (r.id + (m + x)) == p2 + (s.id + (n + y)) {
      Front(p1, r.id + (m + x), p2, s.id + (n + y));
      Front(r.id, m + x, s.id, n + y);
      CutAtBrace(m, x, n, y);
      PrefixFree(r.args, SortedText(Result(r)) + t1, s.args, SortedText(Result(s)) + t2);
      ResultDecodes(Result(r), t1, Result(s), t2);
    }
  }

  /** Of legible rows after one predecessor, equal texts mean agreement but for the cut, and conversely. */
  lemma LegibleText(p: Platform, prev: string, r: Row, s: Row)
    requires p.Valid() && Legible(r) && Legible(s) && (Result(r).Int? ==> !Result(s).Int?)
    ensures RowPayload(p, prev, r) == RowPayload(p, prev, s) <==> SameButCut(r, s)
  {
    hide Legible;
    PayloadDecodes(prev, prev, r, s, p.iso(r.createdAt), p.iso(s.createdAt));
  }

  /** For rows as the gateway writes them, equal texts mean equal predecessors and equal covered fields. */
  lemma PayloadCoversRow(p: Platform, prev1: string, r: Row, prev2: string, s: Row)
    requires p.Valid() && |prev1| == |prev2| && WellFormed(r) && WellFormed(s)
    ensures RowPayload(p, prev1, r) == RowPayload(p, prev2, s) <==> prev1 == prev2 && SameCovered(r, s)
  {
    ToolsHaveNoBrace(r.toolName);
    ToolsHaveNoBrace(s.toolName);
    PayloadDecodes(prev1, prev2, r, s, p.iso(r.createdAt), p.iso(s.createdAt));
    if r.agentId + r.toolName == s.agentId + s.toolName {
      ToolsAreSuffixFree(r.agentId, r.toolName, s.agentId, s.toolName);
    }
  }

  // What jsonb columns can hold: objects have distinct keys.
  ghost predicate HoldsJson(row: Row) {
    Distinct(row.args) && Distinct(Result(row))
  }

  // The edit is of one covered field.
  ghost predicate EditsOneField(r: Row, s: Row) {
    || s == r.(id := s.id)
    || s == r.(agentId := s.agentId)
    || s == r.(toolName := s.toolName)
    || s == r.(args := s.args)
    || s == r.(resultSummary := s.resultSummary)
    || s == r.(createdAt := s.createdAt)
  }

  /**
    Whatever the row holds, legible or not, an edit of one covered field, to any value
    its column can hold, leaves the text only if it leaves the field's content.
   */
  lemma OneFieldShows(p: Platform, prev: string, r: Row, s: Row)
    requires p.Valid() && EditsOneField(r, s) && HoldsJson(r) && HoldsJson(s)
    ensures r.seqNo == s.seqNo && r.rowHash == s.rowHash
    ensures RowPayload(p, prev, r) == RowPayload(p, prev, s) <==> SameCovered(r, s)
  {
    hide SortedText, Equivalent, Distinct;
    PayloadParts(prev, r.id, r.agentId, r.toolName, r.args, Result(r), p.iso(r.createdAt));
    PayloadParts(prev, s.id, s.agentId, s.toolName, s.args, Result(s), p.iso(s.createdAt));
    SameTextIffEquivalent(r.args, s.args);
    SameTextIffEquivalent(Result(r), Result(s));
    var x, y := JsonPart(r.args, Result(r), p.iso(r.createdAt)), JsonPart(s.args, Result(s), p.iso(s.createdAt));
    if RowPayload(p, prev, r) == RowPayload(p, prev, s) {
      Front(prev, r.id + ((r.agentId + r.toolName) + x), prev, s.id + ((s.agentId + s.toolName) + y));
      OneFieldDiffers(p, r, s, x, y);
    }
  }

  lemma OneFieldDiffers(p: Platform, r: Row, s: Row, x: string, y: string)
    requires p.Valid() && EditsOneField(r, s)
    requires x == JsonPart(r.args, Result(r), p.iso(r.createdAt))
    requires y == JsonPart(s.args, Result(s), p.iso(s.createdAt))
    requires r.id + ((r.agentId + r.toolName) + x) == s.id + ((s.agentId + s.toolName) + y)
    ensures r.id == s.id && r.agentId == s.agentId && r.toolName == s.toolName && r.createdAt == s.createdAt
    ensures SortedText(r.args) == SortedText(s.args) && SortedText(Result(r)) == SortedText(Result(s))
  {
    hide SortedText;
    if s.id != r.id {
      SameTail(r.id, s.id, (r.agentId + r.toolName) + x);
    } else {
      Front(r.id, (r.agentId + r.toolName) + x, s.id, (s.agentId + s.toolName) + y);
      if s.agentId != r.agentId {
        SameTail(r.agentId + r.toolName, s.agentId + r.toolName, x);
        SameTail(r.agentId, s.agentId, r.toolName);
      } else if s.toolName != r.toolName {
        SameTail(r.agentId + r.toolName, r.agentId + s.toolName, x);
        Front(r.agentId, r.toolName, r.agentId, s.toolName);
      } else {
        Front(r.agentId + r.toolName, x, s.agentId + s.toolName, y);
        SameJsonPart(p, r, s);
      }
    }
  }

  lemma SameJsonPart(p: Platform, r: Row, s: Row)
    requires p.Valid() && EditsOneField(r, s) && r.id == s.id && r.agentId == s.agentId && r.toolName == s.toolName
    requires JsonPart(r.args, Result(r), p.iso(r.createdAt)) == JsonPart(s.args, Result(s), p.iso(s.createdAt))
    ensures r.createdAt == s.createdAt
    ensures SortedText(r.args) == SortedText(s.args) && SortedText(Result(r)) == SortedText(Result(s))
  {
    hide SortedText;
    var a, b, c := SortedText(r.args), SortedText(Result(r)), p.iso(r.createdAt);
    var d, e, f := SortedText(s.args), SortedText(Result(s)), p.iso(s.createdAt);
    if s.args != r.args {
      SameTail(a, d, b + c);
    } else {
      Front(a, b + c, d, e + f);
      if s.createdAt != r.createdAt {
        Front(b, c, e, f);
      } else {
        SameTail(b, e, c);
      }
    }
  }

  // The cut between agent id and tool name shows nowhere in the text.
  lemma AgentAndToolRunTogether(p: Platform, prev: string, r: Row, s: Row)
    requires s == r.(agentId := s.agentId, toolName := s.toolName)
    requires r.agentId + r.toolName == s.agentId + s.toolName
    ensures RowPayload(p, prev, r) == RowPayload(p, prev, s)
  {
    PayloadParts(prev, r.id, r.agentId, r.toolName, r.args, Result(r), p.iso(r.createdAt));
    PayloadParts(prev, s.id, s.agentId, s.toolName, s.args, Result(s), p.iso(s.createdAt));
  }

  // One audit event, before it is given a number and a hash.
  datatype AuditEvent = AuditEvent(
    agentId: string,
    role: string,
    toolName: string,
    arguments: Value,
    decision: string,
    reason: Option<string>,
    result: Option<Value>,
    approvalId: Option<string>,
    durationMs: Option<int>,
    timestamp: int)

  // Arguments and result are Python dicts.
  ghost predicate Recordable(e: AuditEvent) {
    && e.arguments.Obj? && Distinct(e.arguments)
    && (e.result.Some? ==> e.result.value.Obj? && Distinct(e.result.value))
  }

  function ResultArgument(e: AuditEvent): Value {
    if e.result.Some? then e.result.value else Null
  }

  // The row inserted for an event: the hash is over the event as it is in memory,
  // the columns hold it as jsonb stores it.
  function NewRow(p: Platform, n: int, id: string, traceId: Option<string>, prev: string, e: AuditEvent): Row {
    Row(n, id, e.agentId, e.role, e.toolName, p.jsonb(e.arguments), e.reason, e.approvalId, e.decision,
        if e.result.Some? then Some(p.jsonb(e.result.value)) else None,
        e.durationMs, traceId,
        p.sha256(Payload(prev, id, e.agentId, e.toolName, e.arguments, ResultArgument(e), p.iso(e.timestamp))),
        e.timestamp)
  }

  // Every column holds what the event says: JSON columns its content, the others its very values.
  ghost predicate Reports(row: Row, id: string, traceId: Option<string>, e: AuditEvent) {
    && row.id == id && row.traceId == traceId
    && row.agentId == e.agentId && row.role == e.role && row.toolName == e.toolName
    && Equivalent(e.arguments, row.args)
    && row.reason == e.reason && row.approvalId == e.approvalId
    && row.resultStatus == e.decision
    && (row.resultSummary.Some? <==> e.result.Some?)
    && (e.result.Some? ==> Equivalent(e.result.value, row.resultSummary.value))
    && row.durationMs == e.durationMs && row.createdAt == e.timestamp
  }

  /** The row inserted for an event reports that event, under its number. */
  lemma NewRowReports(p: Platform, n: int, id: string, traceId: Option<string>, prev: string, e: AuditEvent)
    requires p.Valid() && Recordable(e)
    ensures var row := NewRow(p, n, id, traceId, prev, e); row.seqNo == n && Reports(row, id, traceId, e)
  {
    hide Equivalent, Distinct;
  }

  /**
    The hash is reproducible after storage: what is read back from the jsonb
    columns, with keys reordered and every foreign object turned into a string,
    gives the text the writer hashed; a missing result and SQL NULL agree.
   */
  lemma StoredRowHashesAlike(p: Platform, n: int, id: string, traceId: Option<string>, prev: string, e: AuditEvent)
    requires p.Valid() && Recordable(e)
    ensures var row := NewRow(p, n, id, traceId, prev, e); row.rowHash == RowHash(p, prev, row)
  {
    hide SortedText, Distinct;
    JsonbKeepsText(p, e.arguments);
    if e.result.Some? {
      JsonbKeepsText(p, e.result.value);
    }
  }

  lemma JsonbKeepsText(p: Platform, v: Value)
    requires p.Valid() && Distinct(v)
    ensures SortedText(p.jsonb(v)) == SortedText(v)
  {
    SameTextIffEquivalent(v, p.jsonb(v));
  }

  // An event of a registered tool, by an agent whose id holds no brace, becomes a well-formed row.
  lemma NewRowWellFormed(p: Platform, n: int, id: string, traceId: Option<string>, prev: string, e: AuditEvent)
    requires p.Valid() && Recordable(e) && |id| == 36 && '{' !in e.agentId && e.toolName in TOOLS
    ensures WellFormed(NewRow(p, n, id, traceId, prev, e))
  {
    hide TOOLS, Payload;
    JsonbKeepsObjects(p, e.arguments);
    if e.result.Some? {
      JsonbKeepsObjects(p, e.result.value);
    }
  }

  lemma JsonbKeepsObjects(p: Platform, v: Value)
    requires p.Valid() && Distinct(v) && v.Obj?
    ensures p.jsonb(v).Obj? && Distinct(p.jsonb(v))
  {
    assert Equivalent(v, p.jsonb(v));
  }
}
