/**
  The handlers that touch approvals and executors: a tools/call request, the
  decision on a pending approval, and a poll of its status. Each is one atomic
  step; `Step` says what it does to the whole state and the class does it.
 */
module Gateway {
  import opened Options
  import opened Json
  import opened AuditRow
  import opened Policy
  import opened Approvals

  datatype ErrorType = ValidationError | NotFoundError | PermissionDenied | ExecutorTimeout | UpstreamError

  // What running an executor can come to; the executors themselves are outside.
  datatype Execution =
    | Success(result: seq<Field>)
    | ExecutorError(errorType: ErrorType, message: string)
    | UnhandledError(message: string)

  // How an executor came to be run.
  datatype Via = Direct(agent: Agent) | OnApproval(id: string)

  datatype ExecRun = ExecRun(toolName: string, arguments: seq<Field>, via: Via, execution: Execution, at: Moment)

  // An event for the agent's open stream: `detail` is the result, the error or the reason.
  datatype Push = Push(agentId: string, approvalId: string, toolName: string, status: string, detail: Value)

  datatype Response =
    | Crashed
    | InvalidParams(field: string)
    | Forbidden
    | ApprovalPending(id: string, expiresAt: real)
    | DeniedByPolicy(reason: string)
    | ToolFailed(execution: Execution)
    | ToolResult(result: seq<Field>)
    | ApprovalGone
    | ApprovalConflict(status: Status)
    | DecisionTaken(status: Status)
    | StatusReport(approval: Approval)

  // What fails while a handler runs, which then answers with an internal error: the
  // approval store, or the recording of its audit row.
  datatype Fault = NoFault | StoreFails | AuditFails

  // The clock a handler reads, the end of its writes, the stamp and duration of its audit
  // row, and what fails.
  datatype Moment = Moment(now: real, writtenAt: real, stamp: int, tookMs: int, fault: Fault)

  predicate Logged(at: Moment) {
    at.fault != AuditFails
  }

  datatype Event =
    | Call(agent: Agent, params: seq<Field>, opaUp: bool, execution: Execution, newId: string, at: Moment)
    | Decide(id: string, approve: bool, decidedBy: string, note: string, readAt: real, decidedAt: real,
             execution: Execution, at: Moment)
    | Poll(id: string, at: Moment)

  // A request for approval as it was made, and the ruling on it. These two maps and
  // `trace` are the history of a run, kept beside the gateway's own state.
  datatype Request = Request(agent: Agent, approval: Approval, at: Moment)

  datatype Ruling = Ruling(approve: bool, decidedBy: string, note: string, decidedAt: real,
                           execution: Execution, at: Moment)

  datatype State = State(
    clock: real,
    kv: Records,
    pending: int,
    audit: seq<AuditEvent>,
    pushes: seq<Push>,
    trace: seq<ExecRun>,
    requests: map<string, Request>,
    rulings: map<string, Ruling>)

  const INITIAL := State(0.0, map[], 0, [], [], [], map[], map[])

  // ---------------------------------------------------------------- audit rows

  function AuditLabel(e: Execution): string {
    match e
    case Success(_) => "allowed"
    case ExecutorError(t, _) => if t == ExecutorTimeout then "executor_timeout" else "error"
    case UnhandledError(_) => "error"
  }

  function Message(e: Execution): string
    requires !e.Success?
  {
    match e
    case ExecutorError(_, m) => m
    case UnhandledError(m) => m
  }

  // The audit row of an executor's run; `reason` is the reason given when it succeeds.
  function RunRow(agentId: string, role: string, toolName: string, arguments: seq<Field>, e: Execution,
                  reason: string, approvalId: Option<string>, at: Moment): AuditEvent
  {
    AuditEvent(agentId, role, toolName, Obj(arguments), AuditLabel(e),
               Some(if e.Success? then reason else Message(e)),
               if e.Success? then Some(Obj(e.result)) else None, approvalId, Some(at.tookMs), at.stamp)
  }

  function PendingRow(a: Approval, at: Moment): AuditEvent {
    AuditEvent(a.agentId, a.role, a.toolName, Obj(a.arguments), "pending_approval", Some(a.reason), None,
               Some(a.id), Some(at.tookMs), at.stamp)
  }

  function DenialReason(decidedBy: string, note: string): string {
    "denied by " + decidedBy + if note == "" then "" else ": " + note
  }

  // The log after a handler tried to record a row.
  function Recorded(audit: seq<AuditEvent>, row: AuditEvent, at: Moment): seq<AuditEvent> {
    if Logged(at) then audit + [row] else audit
  }

  function Answer(at: Moment, response: Response): Response {
    if Logged(at) then response else Crashed
  }

  // What a ruling on a request leaves in the audit log and pushes to the agent.
  function RulingRow(a: Approval, r: Ruling): AuditEvent {
    if r.approve then
      RunRow(a.agentId, a.role, a.toolName, a.arguments, r.execution, "approved by " + r.decidedBy, Some(a.id), r.at)
    else
      AuditEvent(a.agentId, a.role, a.toolName, Obj(a.arguments), "approval_denied",
                 Some(DenialReason(r.decidedBy, r.note)), None, Some(a.id), Some(r.at.tookMs), r.at.stamp)
  }

  function RulingPush(a: Approval, r: Ruling): Push {
    if !r.approve then Push(a.agentId, a.id, a.toolName, "denied", Str(DenialReason(r.decidedBy, r.note)))
    else if r.execution.Success? then Push(a.agentId, a.id, a.toolName, "approved", Obj(r.execution.result))
    else Push(a.agentId, a.id, a.toolName, "error", Str(Message(r.execution)))
  }

  // ---------------------------------------------------------------- tools/call

  function Input(agent: Agent, toolName: string, arguments: seq<Field>, environment: string): OpaInput {
    OpaInput(agent.role, toolName, Namespace(arguments), environment)
  }

  // Parameters are in order, the tool is registered and in the agent's scope.
  predicate InScope(agent: Agent, params: seq<Field>) {
    var c := InterceptToolCall(params);
    && c.Context?
    && InferEnvironment(c.arguments).Some?
    && c.toolName.Str? && c.toolName.s in TOOLS && c.toolName.s in agent.allowedTools
  }

  // What a call that is not in scope is answered; a list or a dict as name cannot be looked up.
  function Refusal(agent: Agent, params: seq<Field>): Response
    requires !InScope(agent, params)
  {
    match InterceptToolCall(params)
    case MissingParam(field) => InvalidParams(field)
    case Context(name, arguments) =>
      if InferEnvironment(arguments).None? || name.Arr? || name.Obj? then Crashed
      else if !(name.Str? && name.s in TOOLS) then InvalidParams("name")
      else Forbidden
  }

  function Decision(d: PolicyData, e: Event): PolicyDecision
    requires e.Call? && InScope(e.agent, e.params)
  {
    var Context(name, arguments) := InterceptToolCall(e.params);
    var i := Input(e.agent, name.s, arguments, InferEnvironment(arguments).value);
    EvaluatePolicy(name.s, AskOpa(d, e.opaUp, i))
  }

  function CallInScope(s: State, d: PolicyData, e: Event): (State, Response)
    requires e.Call? && InScope(e.agent, e.params)
  {
    var Context(name, arguments) := InterceptToolCall(e.params);
    var tool, decision, agent, at := name.s, Decision(d, e), e.agent, e.at;
    if decision.requireApproval && at.fault == StoreFails then (s.(clock := at.writtenAt), Crashed)
    else if decision.requireApproval then
      var a := NewApproval(e.newId, agent.id, agent.role, tool, arguments, decision.reason, at.now);
      (s.(clock := at.writtenAt,
          kv := s.kv[e.newId := Entry(a, Some(at.writtenAt + APPROVAL_TTL_SECONDS))],
          pending := s.pending + 1,
          audit := Recorded(s.audit, PendingRow(a, at), at),
          requests := s.requests[e.newId := Request(agent, a, at)]),
       Answer(at, ApprovalPending(e.newId, a.expiresAt)))
    else if !decision.allow then
      var row := AuditEvent(agent.id, agent.role, tool, Obj(arguments), "denied",
                            Some(decision.reason), None, None, Some(at.tookMs), at.stamp);
      (s.(clock := at.writtenAt, audit := Recorded(s.audit, row, at)), Answer(at, DeniedByPolicy(decision.reason)))
    else
      var row := RunRow(agent.id, agent.role, tool, arguments, e.execution, decision.reason, None, at);
      (s.(clock := at.writtenAt,
          audit := Recorded(s.audit, row, at),
          trace := s.trace + [ExecRun(tool, arguments, Direct(agent), e.execution, at)]),
       Answer(at, if e.execution.Success? then ToolResult(e.execution.result) else ToolFailed(e.execution)))
  }

  // ------------------------------------------------------------------- decide

  function RulingOf(e: Event): Ruling
    requires e.Decide?
  {
    Ruling(e.approve, e.decidedBy, e.note, e.decidedAt, e.execution, e.at)
  }

  function ApprovedRun(a: Approval, r: Ruling): ExecRun {
    ExecRun(a.toolName, a.arguments, OnApproval(a.id), r.execution, r.at)
  }

  function DecidePending(s: State, e: Event): (State, Response)
    requires e.Decide? && e.id in s.kv
  {
    var a := Settle(s.kv[e.id].approval, e.approve, e.decidedBy, e.decidedAt);
    var r := RulingOf(e);
    (s.(clock := e.at.writtenAt,
        kv := s.kv[e.id := KeepTtl(s.kv[e.id], a, e.at.writtenAt)],
        pending := s.pending - 1,
        audit := Recorded(s.audit, RulingRow(a, r), e.at),
        pushes := s.pushes + if Logged(e.at) then [RulingPush(a, r)] else [],
        trace := s.trace + if e.approve then [ApprovedRun(a, r)] else [],
        rulings := s.rulings[e.id := r]),
     Answer(e.at, DecisionTaken(a.status)))
  }

  // --------------------------------------------------------------------- steps

  // Time moves forward, a new approval has a new id, arguments and results are Python dicts.
  ghost predicate Enabled(s: State, e: Event) {
    && s.clock <= e.at.now <= e.at.writtenAt
    && (e.Call? ==> e.newId !in s.requests && Distinct(Obj(e.params)))
    && (e.Decide? ==> s.clock <= e.readAt <= e.at.now <= e.decidedAt <= e.at.writtenAt)
    && (!e.Poll? && e.execution.Success? ==> Distinct(Obj(e.execution.result)))
  }

  function Step(s: State, d: PolicyData, e: Event): (State, Response) {
    var quiet := s.(clock := e.at.writtenAt);
    match e
    case Call(agent, params, _, _, _, _) =>
      if InScope(agent, params) then CallInScope(s, d, e) else (quiet, Refusal(agent, params))
    case Decide(id, _, _, _, readAt, _, _, at) =>
      if at.fault == StoreFails then (quiet, Crashed)
      else (
        match DecisionOutcome(s.kv, id, readAt, at.now)
        case NotFound => (quiet, ApprovalGone)
        case AlreadyDecided => (quiet, ApprovalConflict(s.kv[id].approval.status))
        case Decided => DecidePending(s, e))
    case Poll(id, at) =>
      if at.fault == StoreFails then (quiet, Crashed)
      else
        var a := Lookup(s.kv, id, at.now);
        (quiet, if a.None? then ApprovalGone else StatusReport(a.value))
  }

  // --------------------------------------------------------------- the gateway

  class Gateway {
    const policy: PolicyData
    const store: ApprovalStore
    var clock: real
    var audit: seq<AuditEvent>
    var pushes: seq<Push>
    var trace: seq<ExecRun>
    ghost var requests: map<string, Request>
    ghost var rulings: map<string, Ruling>

    ghost function Snapshot(): State
      reads this, store
    {
      State(clock, store.kv, store.pending, audit, pushes, trace, requests, rulings)
    }

    constructor (policy: PolicyData)
      ensures this.policy == policy && fresh(store) && Snapshot() == INITIAL
    {
      this.policy := policy;
      store := new ApprovalStore();
      clock, audit, pushes, trace, requests, rulings := 0.0, [], [], [], map[], map[];
    }

    // `ok` is false when the database raises.
    method RecordToolCall(e: AuditEvent, at: Moment) returns (ok: bool)
      modifies this`audit
      ensures ok == Logged(at) && audit == Recorded(old(audit), e, at)
    {
      ok := Logged(at);
      if ok {
        audit := audit + [e];
      }
    }

    method Publish(p: Push)
      modifies this`pushes
      ensures pushes == old(pushes) + [p]
    {
      pushes := pushes + [p];
    }

    // The executor's outcome is its own; that it was run, on what and why, is recorded.
    method ExecuteTool(toolName: string, arguments: seq<Field>, via: Via, execution: Execution, at: Moment)
      returns (outcome: Execution)
      modifies this`trace
      ensures outcome == execution
      ensures trace == old(trace) + [ExecRun(toolName, arguments, via, execution, at)]
    {
      trace := trace + [ExecRun(toolName, arguments, via, execution, at)];
      outcome := execution;
    }

    // tools/call
    method ToolsCall(agent: Agent, params: seq<Field>, opaUp: bool, execution: Execution, newId: string, at: Moment)
      returns (response: Response)
      modifies this, store
      ensures (Snapshot(), response) ==
                Step(old(Snapshot()), policy, Call(agent, params, opaUp, execution, newId, at))
    {
      hide TOOLS, InferEnvironment, InterceptToolCall, AskOpa, EvaluatePolicy, Namespace;
      clock := at.writtenAt;
      var context := InterceptToolCall(params);
      if context.MissingParam? {
        return InvalidParams(context.field);
      }
      var name, arguments := context.toolName, context.arguments;
      var environment := InferEnvironment(arguments);
      if environment.None? || name.Arr? || name.Obj? {
        return Crashed;
      }
      if !name.Str? || name.s !in TOOLS {
        return InvalidParams("name");
      }
      var tool := name.s;
      if tool !in agent.allowedTools {
        return Forbidden;
      }
      var decision := EvaluatePolicy(tool, AskOpa(policy, opaUp, Input(agent, tool, arguments, environment.value)));
      var ok: bool;
      if decision.requireApproval {
        if at.fault == StoreFails {
          return Crashed;
        }
        var a := store.CreatePendingApproval(newId, agent.id, agent.role, tool, arguments, decision.reason,
                                             at.now, at.writtenAt);
        requests := requests[newId := Request(agent, a, at)];
        ok := RecordToolCall(AuditEvent(agent.id, agent.role, tool, Obj(arguments), "pending_approval",
                                        Some(decision.reason), None, Some(a.id), Some(at.tookMs), at.stamp), at);
        if !ok {
          return Crashed;
        }
        return ApprovalPending(a.id, a.expiresAt);
      }
      if !decision.allow {
        ok := RecordToolCall(AuditEvent(agent.id, agent.role, tool, Obj(arguments), "denied",
                                        Some(decision.reason), None, None, Some(at.tookMs), at.stamp), at);
        if !ok {
          return Crashed;
        }
        return DeniedByPolicy(decision.reason);
      }
      var outcome := ExecuteTool(tool, arguments, Direct(agent), execution, at);
      match outcome {
        case ExecutorError(errorType, message) =>
          var status := if errorType == ExecutorTimeout then "executor_timeout" else "error";
          ok := RecordToolCall(AuditEvent(agent.id, agent.role, tool, Obj(arguments), status,
                                          Some(message), None, None, Some(at.tookMs), at.stamp), at);
          if !ok {
            return Crashed;
          }
          return ToolFailed(outcome);
        case UnhandledError(message) =>
          ok := RecordToolCall(AuditEvent(agent.id, agent.role, tool, Obj(arguments), "error",
                                          Some(message), None, None, Some(at.tookMs), at.stamp), at);
          if !ok {
            return Crashed;
          }
          return ToolFailed(outcome);
        case Success(result) =>
          ok := RecordToolCall(AuditEvent(agent.id, agent.role, tool, Obj(arguments), "allowed",
                                          Some(decision.reason), Some(Obj(result)), None,
                                           Some(at.tookMs), at.stamp), at);
          if !ok {
            return Crashed;
          }
          return ToolResult(result);
      }
    }

    // POST /admin/approvals/{id}/decide, already authenticated
    method DecideApproval(id: string, approve: bool, decidedBy: string, note: string, readAt: real, decidedAt: real,
                          execution: Execution, at: Moment)
      returns (response: Response)
      modifies this, store
      ensures (Snapshot(), response) ==
                Step(old(Snapshot()), policy, Decide(id, approve, decidedBy, note, readAt, decidedAt, execution, at))
    {
      clock := at.writtenAt;
      if at.fault == StoreFails {
        return Crashed;
      }
      var ok: bool;
      var found, outcome := store.DecideApproval(id, approve, decidedBy, readAt, at.now, decidedAt, at.writtenAt);
      if outcome == NotFound {
        return ApprovalGone;
      }
      var a := found.value;
      if outcome == AlreadyDecided {
        return ApprovalConflict(a.status);
      }
      assert trace + [] == trace && pushes + [] == pushes;
      rulings := rulings[id := Ruling(approve, decidedBy, note, decidedAt, execution, at)];
      if a.status == Denied {
        var reason := "denied by " + decidedBy;
        if note != "" {
          reason := reason + (": " + note);
        }
        assert reason == DenialReason(decidedBy, note);
        ok := RecordToolCall(AuditEvent(a.agentId, a.role, a.toolName, Obj(a.arguments), "approval_denied",
                                        Some(reason), None, Some(a.id), Some(at.tookMs), at.stamp), at);
        if !ok {
          return Crashed;
        }
        Publish(Push(a.agentId, a.id, a.toolName, "denied", Str(reason)));
        return DecisionTaken(Denied);
      }
      var ran := ExecuteTool(a.toolName, a.arguments, OnApproval(a.id), execution, at);
      if ran.Success? {
        ok := RecordToolCall(AuditEvent(a.agentId, a.role, a.toolName, Obj(a.arguments), "allowed",
                                        Some("approved by " + decidedBy), Some(Obj(ran.result)), Some(a.id),
                                        Some(at.tookMs), at.stamp), at);
        if !ok {
          return Crashed;
        }
        Publish(Push(a.agentId, a.id, a.toolName, "approved", Obj(ran.result)));
      } else {
        var status := if ran.ExecutorError? && ran.errorType == ExecutorTimeout then "executor_timeout" else "error";
        ok := RecordToolCall(AuditEvent(a.agentId, a.role, a.toolName, Obj(a.arguments), status,
                                        Some(Message(ran)), None, Some(a.id), Some(at.tookMs), at.stamp), at);
        if !ok {
          return Crashed;
        }
        Publish(Push(a.agentId, a.id, a.toolName, "error", Str(Message(ran))));
      }
      return DecisionTaken(Approved);
    }

    // GET /admin/approvals/{id}/status
    method ApprovalStatus(id: string, at: Moment) returns (response: Response)
      modifies this`clock
      ensures (Snapshot(), response) == Step(old(Snapshot()), policy, Poll(id, at))
    {
      clock := at.writtenAt;
      if at.fault == StoreFails {
        return Crashed;
      }
      var a := store.GetApproval(id, at.now);
      return if a.None? then ApprovalGone else StatusReport(a.value);
    }
  }
}
