/**
  What holds of every run of the gateway, however requests, decisions and polls
  follow each other: what is stored and logged about an approval is a function of
  how it was requested and ruled on, and no executor runs without leave.
 */
module GatewayRuns {
  import opened Options
  import opened Json
  import opened AuditRow
  import opened Policy
  import opened Approvals
  import opened Gateway

  // --------------------------------------------------------------------- runs

  function After(d: PolicyData, events: seq<Event>): State {
    if events == [] then INITIAL
    else Step(After(d, events[..|events| - 1]), d, events[|events| - 1]).0
  }

  ghost predicate IsRun(d: PolicyData, events: seq<Event>) {
    events == [] ||
    var before := events[..|events| - 1];
    IsRun(d, before) && Enabled(After(d, before), events[|events| - 1])
  }

  // The elements of `s` that `keep` accepts, in order.
  function Select<T>(s: seq<T>, keep: T -> bool): seq<T> {
    if s == [] then []
    else Select(s[..|s| - 1], keep) + if keep(s[|s| - 1]) then [s[|s| - 1]] else []
  }

  lemma SelectNext<T>(s: seq<T>, x: T, keep: T -> bool)
    ensures Select(s + [x], keep) == Select(s, keep) + if keep(x) then [x] else []
  {
    assert (s + [x])[..|s|] == s;
  }

  lemma {:induction false} Selected<T>(s: seq<T>, keep: T -> bool, k: nat)
    requires k < |s| && keep(s[k])
    ensures s[k] in Select(s, keep)
  {
    if k < |s| - 1 {
      Selected(s[..|s| - 1], keep, k);
    }
  }

  // ------------------------------------------------- an approval and its history

  function RowOf(id: string): AuditEvent -> bool {
    (row: AuditEvent) => row.approvalId == Some(id)
  }

  function PushOf(id: string): Push -> bool {
    (p: Push) => p.approvalId == id
  }

  function RunOf(id: string): ExecRun -> bool {
    (run: ExecRun) => run.via == OnApproval(id)
  }

  predicate Requested(s: State, id: string) {
    id in s.requests
  }

  predicate Ruled(s: State, id: string) {
    id in s.requests && id in s.rulings
  }

  predicate ApprovedBy(s: State, id: string) {
    Ruled(s, id) && s.rulings[id].approve
  }

  // The end of the life a record was created with.
  function Deadline(q: Request): real {
    q.at.writtenAt + APPROVAL_TTL_SECONDS
  }

  // The record that a request, and the ruling on it if there is one, leave in the store.
  function Stored(s: State, id: string): Entry
    requires Requested(s, id)
  {
    var q := s.requests[id];
    if Ruled(s, id) then
      var r := s.rulings[id];
      Entry(Settle(q.approval, r.approve, r.decidedBy, r.decidedAt),
            if r.at.writtenAt <= Deadline(q) then Some(Deadline(q)) else None)
    else Entry(q.approval, Some(Deadline(q)))
  }

  // The rows about it, oldest first: one when it was requested, one when it was ruled on,
  // less those that the database failed to record.
  function RowsDue(s: State, id: string): seq<AuditEvent> {
    if !Requested(s, id) then []
    else
      var q := s.requests[id];
      (if Logged(q.at) then [PendingRow(q.approval, q.at)] else [])
        + if RulingLogged(s, id) then [RulingRow(q.approval, s.rulings[id])] else []
  }

  predicate RulingLogged(s: State, id: string) {
    Ruled(s, id) && Logged(s.rulings[id].at)
  }

  function PushesDue(s: State, id: string): seq<Push> {
    if RulingLogged(s, id) then [RulingPush(s.requests[id].approval, s.rulings[id])] else []
  }

  // An approved request runs once, on what was requested.
  function RunsDue(s: State, id: string): seq<ExecRun> {
    if ApprovedBy(s, id) then
      var a, r := s.requests[id].approval, s.rulings[id];
      [ExecRun(a.toolName, a.arguments, OnApproval(id), r.execution, r.at)]
    else []
  }

  // Registered, in the agent's scope, and allowed by the policy in the inferred environment.
  predicate Cleared(d: PolicyData, agent: Agent, toolName: string, arguments: seq<Field>) {
    && toolName in TOOLS && toolName in agent.allowedTools
    && InferEnvironment(arguments).Some?
    && Allow(d, Input(agent, toolName, arguments, InferEnvironment(arguments).value))
  }

  predicate NeedsApproval(d: PolicyData, agent: Agent, toolName: string, arguments: seq<Field>) {
    && InferEnvironment(arguments).Some?
    && RequireApproval(d, Input(agent, toolName, arguments, InferEnvironment(arguments).value))
  }

  predicate RequestInOrder(d: PolicyData, id: string, q: Request) {
    var a := q.approval;
    && a.id == id && a.agentId == q.agent.id && a.role == q.agent.role && a.status == Pending
    && a.expiresAt == a.requestedAt + APPROVAL_TTL_SECONDS && a.requestedAt <= q.at.writtenAt
    && Cleared(d, q.agent, a.toolName, a.arguments)
    && NeedsApproval(d, q.agent, a.toolName, a.arguments)
  }

  // Ruled on after it was requested and no later than it expired.
  predicate RuledInTime(q: Request, r: Ruling) {
    && q.at.writtenAt <= r.at.now <= r.decidedAt <= r.at.writtenAt
    && r.at.now <= q.approval.expiresAt
  }

  predicate RecordKept(s: State, d: PolicyData, id: string) {
    && (Requested(s, id) <==> id in s.kv)
    && (id in s.rulings ==> Requested(s, id))
    && (Requested(s, id) ==> && RequestInOrder(d, id, s.requests[id])
                             && s.requests[id].at.writtenAt <= s.clock
                             && s.kv[id] == Stored(s, id))
    && (Ruled(s, id) ==> RuledInTime(s.requests[id], s.rulings[id]))
  }

  ghost predicate TracesKept(s: State, id: string) {
    && Select(s.audit, RowOf(id)) == RowsDue(s, id)
    && Select(s.pushes, PushOf(id)) == PushesDue(s, id)
    && Select(s.trace, RunOf(id)) == RunsDue(s, id)
  }

  ghost predicate Kept(s: State, d: PolicyData, id: string) {
    RecordKept(s, d, id) && TracesKept(s, id)
  }

  // -------------------------------------------------------------- every step

  // A step that leaves an approval alone.
  ghost predicate Untouched(s: State, t: State, id: string) {
    && s.clock <= t.clock
    && (id in s.kv <==> id in t.kv) && (id in s.kv ==> t.kv[id] == s.kv[id])
    && (id in s.requests <==> id in t.requests) && (id in s.requests ==> t.requests[id] == s.requests[id])
    && (id in s.rulings <==> id in t.rulings) && (id in s.rulings ==> t.rulings[id] == s.rulings[id])
    && Select(t.audit, RowOf(id)) == Select(s.audit, RowOf(id))
    && Select(t.pushes, PushOf(id)) == Select(s.pushes, PushOf(id))
    && Select(t.trace, RunOf(id)) == Select(s.trace, RunOf(id))
  }

  lemma UntouchedKeeps(s: State, t: State, d: PolicyData, id: string)
    requires Kept(s, d, id) && Untouched(s, t, id)
    ensures Kept(t, d, id)
  {
    hide Select, RequestInOrder, RulingRow, RulingPush, PendingRow;
  }

  // A callback that decides a pending approval, and reaches the store.
  predicate TakesEffect(s: State, e: Event) {
    e.Decide? && e.at.fault != StoreFails && DecisionOutcome(s.kv, e.id, e.readAt, e.at.now) == Decided
  }

  // An in-scope call asks for approval, is denied, or runs.
  lemma AskStep(s: State, d: PolicyData, e: Event, id: string)
    requires Kept(s, d, id) && Enabled(s, e) && e.Call? && InScope(e.agent, e.params)
    requires Decision(d, e).requireApproval && e.at.fault != StoreFails
    ensures Kept(Step(s, d, e).0, d, id)
  {
    hide Select, InScope, InferEnvironment, Allow, TOOLS, RequireApproval, Decision;
    var t := Step(s, d, e).0;
    var q := t.requests[e.newId];
    RecordedNext(s.audit, PendingRow(q.approval, q.at), e.at, id);
    if id == e.newId {
      AskedInOrder(d, e);
    } else {
      UntouchedKeeps(s, t, d, id);
    }
  }

  lemma AskedInOrder(d: PolicyData, e: Event)
    requires e.Call? && InScope(e.agent, e.params) && Decision(d, e).requireApproval
    ensures var c := InterceptToolCall(e.params);
            Cleared(d, e.agent, c.toolName.s, c.arguments) && NeedsApproval(d, e.agent, c.toolName.s, c.arguments)
  {
    hide InferEnvironment, InterceptToolCall, TOOLS;
  }

  lemma AnswerStep(s: State, d: PolicyData, e: Event, id: string)
    requires Kept(s, d, id) && Enabled(s, e) && e.Call? && InScope(e.agent, e.params)
    requires !Decision(d, e).requireApproval
    ensures Kept(Step(s, d, e).0, d, id)
  {
    hide Select, InScope, InferEnvironment, Allow, TOOLS, RequireApproval, Decision, Kept;
    var t := Step(s, d, e).0;
    if Logged(e.at) {
      SelectNext(s.audit, t.audit[|s.audit|], RowOf(id));
    }
    if Decision(d, e).allow {
      SelectNext(s.trace, t.trace[|s.trace|], RunOf(id));
    }
    UntouchedKeeps(s, t, d, id);
  }

  lemma RulingStep(s: State, d: PolicyData, e: Event, id: string)
    requires TakesEffect(s, e)
    requires Kept(s, d, id) && Kept(s, d, e.id) && Enabled(s, e)
    ensures Kept(Step(s, d, e).0, d, id)
  {
    hide Select, Cleared, NeedsApproval, RulingRow, RulingPush, PendingRow;
    var t := Step(s, d, e).0;
    var a := s.requests[e.id].approval;
    var r := RulingOf(e);
    RuledAfresh(s, d, e);
    RecordedNext(s.audit, RulingRow(a, r), e.at, id);
    SelectNext(s.pushes, RulingPush(a, r), PushOf(id));
    assert s.pushes + [] == s.pushes;
    if e.approve {
      SelectNext(s.trace, ApprovedRun(a, r), RunOf(id));
    } else {
      assert t.trace == s.trace;
    }
    RowsAreOf(a, r);
    if id != e.id {
      UntouchedKeeps(s, t, d, id);
    }
  }

  lemma RowsAreOf(a: Approval, r: Ruling)
    ensures RulingRow(a, r).approvalId == Some(a.id) && RulingPush(a, r).approvalId == a.id
  {
  }

  lemma RecordedNext(audit: seq<AuditEvent>, row: AuditEvent, at: Moment, id: string)
    ensures Select(Recorded(audit, row, at), RowOf(id)) ==
            Select(audit, RowOf(id)) + if Logged(at) && row.approvalId == Some(id) then [row] else []
  {
    SelectNext(audit, row, RowOf(id));
    assert Select(audit, RowOf(id)) + [] == Select(audit, RowOf(id));
  }

  // The approval ruled on was requested and not ruled on before.
  lemma RuledAfresh(s: State, d: PolicyData, e: Event)
    requires TakesEffect(s, e)
    requires RecordKept(s, d, e.id)
    ensures e.id in s.requests && e.id !in s.rulings
    ensures var a, r := s.requests[e.id].approval, RulingOf(e);
            && s.kv[e.id].approval == a && a.id == e.id
            && Step(s, d, e).0.audit == Recorded(s.audit, RulingRow(a, r), e.at)
            && Step(s, d, e).0.pushes == s.pushes + if Logged(e.at) then [RulingPush(a, r)] else []
  {
    hide Cleared, NeedsApproval;
  }

  // A call out of scope or whose request is not stored, a decision without effect and a
  // poll change nothing.
  lemma StaysQuiet(s: State, d: PolicyData, e: Event)
    requires e.Call? && InScope(e.agent, e.params) ==> Decision(d, e).requireApproval && e.at.fault == StoreFails
    requires !TakesEffect(s, e)
    ensures Step(s, d, e).0 == s.(clock := e.at.writtenAt)
  {
    hide InScope, Decision;
  }

  lemma StepKeeps(s: State, d: PolicyData, e: Event, id: string)
    requires Kept(s, d, id) && (e.Decide? ==> Kept(s, d, e.id)) && Enabled(s, e)
    ensures Kept(Step(s, d, e).0, d, id)
  {
    hide Select, InScope, CallInScope, DecidePending, Kept;
    if e.Call? && InScope(e.agent, e.params) && !(Decision(d, e).requireApproval && e.at.fault == StoreFails) {
      if Decision(d, e).requireApproval {
        AskStep(s, d, e, id);
      } else {
        AnswerStep(s, d, e, id);
      }
    } else if TakesEffect(s, e) {
      RulingStep(s, d, e, id);
    } else {
      StaysQuiet(s, d, e);
      UntouchedKeeps(s, Step(s, d, e).0, d, id);
    }
  }

  lemma InitiallyKept(d: PolicyData, id: string)
    ensures Kept(INITIAL, d, id)
  {
  }

  lemma {:induction false} RunKeeps(d: PolicyData, events: seq<Event>, id: string)
    requires IsRun(d, events)
    ensures Kept(After(d, events), d, id)
  {
    hide Step, Kept, Enabled;
    if events == [] {
      InitiallyKept(d, id);
    } else {
      var e := events[|events| - 1];
      var before := events[..|events| - 1];
      RunKeeps(d, before, id);
      if e.Decide? {
        RunKeeps(d, before, e.id);
      }
      StepKeeps(After(d, before), d, e, id);
    }
  }
}
