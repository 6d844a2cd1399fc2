/**
  What the gateway answers, and what each answer says was done: every call by what was
  asked and what the policy decides, every ruling and every poll by the approval's history.
 */
module GatewayAnswers {
  import opened Options
  import opened Json
  import opened AuditRow
  import opened Policy
  import opened PolicyLaws
  import opened Approvals
  import opened Gateway
  import opened GatewayRuns
  import opened GatewaySafety

  // ------------------------------------------------------------ what is asked

  predicate Registered(name: Value) {
    name.Str? &&
    name.s in {"list_pods", "get_pod_logs", "get_deployment_status", "restart_deployment", "scale_deployment",
               "exec_into_pod", "apply_k8s_manifest", "query_terraform_plan", "trigger_jenkins_job",
               "get_jenkins_job_status", "read_prometheus_metrics", "open_ticket", "read_ticket"}
  }

  // An object, or nothing at all.
  predicate GivesArguments(params: seq<Field>) {
    Get(params, "arguments").Null? || Get(params, "arguments").Obj?
  }

  function ArgumentsOf(params: seq<Field>): seq<Field> {
    if Get(params, "arguments").Obj? then Get(params, "arguments").fields else []
  }

  // Its namespace is a string, or as good as none.
  predicate Readable(arguments: seq<Field>) {
    Falsy(Get(arguments, "namespace")) || Get(arguments, "namespace").Str?
  }

  predicate InOrder(agent: Agent, params: seq<Field>) {
    && GivesArguments(params) && Readable(ArgumentsOf(params))
    && Registered(Get(params, "name")) && Get(params, "name").s in agent.allowedTools
  }

  lemma RegisteredIs(name: Value)
    ensures Registered(name) <==> name.Str? && name.s in TOOLS
    ensures Registered(name) ==> !Falsy(name)
  {
  }

  lemma InterceptIs(params: seq<Field>)
    ensures var name := Get(params, "name");
            InterceptToolCall(params) ==
              if Falsy(name) then MissingParam("name")
              else if GivesArguments(params) then Context(name, ArgumentsOf(params)) else MissingParam("arguments")
  {
    TruthIs(Get(params, "name"));
  }

  lemma InScopeIsInOrder(agent: Agent, params: seq<Field>)
    ensures InScope(agent, params) <==> InOrder(agent, params)
    ensures InScope(agent, params) ==>
              InterceptToolCall(params) == Context(Get(params, "name"), ArgumentsOf(params))
  {
    hide Registered, InferEnvironment, InterceptToolCall, TOOLS;
    InterceptIs(params);
    RegisteredIs(Get(params, "name"));
    EnvironmentIs(ArgumentsOf(params));
  }

  /** A call that is not in order changes nothing, and is told what is wrong with it, first things first. */
  lemma CallRefused(s: State, d: PolicyData, e: Event)
    requires e.Call? && !InOrder(e.agent, e.params)
    ensures var (t, r) := Step(s, d, e);
            var name, arguments := Get(e.params, "name"), ArgumentsOf(e.params);
            && t == s.(clock := e.at.writtenAt)
            && r == if Falsy(name) then InvalidParams("name")
                    else if !GivesArguments(e.params) then InvalidParams("arguments")
                    else if !Readable(arguments) || name.Arr? || name.Obj? then Crashed
                    else if !Registered(name) then InvalidParams("name")
                    else Forbidden
  {
    hide Registered, InferEnvironment, InterceptToolCall, TOOLS, InScope, InOrder, Readable;
    InScopeIsInOrder(e.agent, e.params);
    InterceptIs(e.params);
    RegisteredIs(Get(e.params, "name"));
    ReadableIs(ArgumentsOf(e.params));
  }

  lemma ReadableIs(arguments: seq<Field>)
    ensures Readable(arguments) <==> InferEnvironment(arguments).Some?
  {
    EnvironmentIs(arguments);
  }

  // ------------------------------------------------------------ what is done

  // What the policy engine is asked about a call.
  function Question(e: Event): OpaInput
    requires e.Call? && InOrder(e.agent, e.params)
  {
    ReadableIs(ArgumentsOf(e.params));
    OpaInput(e.agent.role, Get(e.params, "name").s, Get(ArgumentsOf(e.params), "namespace"),
             InferEnvironment(ArgumentsOf(e.params)).value)
  }

  // The one row added, unless the database failed it.
  predicate Adds(s: State, t: State, e: Event, row: AuditEvent) {
    t.audit == s.audit + if e.at.fault == AuditFails then [] else [row]
  }

  // A request was stored, pending for fifteen minutes from now, and nothing ran.
  predicate Asks(s: State, t: State, e: Event)
    requires e.Call? && InOrder(e.agent, e.params)
  {
    var tool, arguments := Get(e.params, "name").s, ArgumentsOf(e.params);
    && e.newId in t.requests && t.requests == s.requests[e.newId := t.requests[e.newId]]
    && var q := t.requests[e.newId];
    && q.agent == e.agent && q.at == e.at
    && var a := q.approval;
    && a.id == e.newId && a.agentId == e.agent.id && a.role == e.agent.role
    && a.toolName == tool && a.arguments == arguments
    && a.reason == "'" + tool + "' is a destructive action in prod and requires approval"
    && a.status == Pending && a.requestedAt == e.at.now && a.expiresAt == e.at.now + 900.0
    && a.decidedBy == None && a.decidedAt == None
    && t.kv == s.kv[e.newId := Entry(a, Some(e.at.writtenAt + 900.0))] && t.pending == s.pending + 1
    && t.trace == s.trace
    && Adds(s, t, e, AuditEvent(e.agent.id, e.agent.role, tool, Obj(arguments), "pending_approval", Some(a.reason),
                                None, Some(e.newId), Some(e.at.tookMs), e.at.stamp))
  }

  // Nothing was stored or run.
  predicate Denies(s: State, t: State, e: Event, reason: string)
    requires e.Call? && InOrder(e.agent, e.params)
  {
    && t.requests == s.requests && t.kv == s.kv && t.pending == s.pending && t.trace == s.trace
    && Adds(s, t, e, AuditEvent(e.agent.id, e.agent.role, Get(e.params, "name").s, Obj(ArgumentsOf(e.params)), "denied",
                                Some(reason), None, None, Some(e.at.tookMs), e.at.stamp))
  }

  // The executor ran on these arguments, and nothing was stored.
  predicate Runs(s: State, t: State, e: Event)
    requires e.Call? && InOrder(e.agent, e.params)
  {
    var tool, arguments := Get(e.params, "name").s, ArgumentsOf(e.params);
    && t.requests == s.requests && t.kv == s.kv && t.pending == s.pending
    && t.trace == s.trace + [ExecRun(tool, arguments, Direct(e.agent), e.execution, e.at)]
    && Adds(s, t, e,
         match e.execution
         case Success(result) =>
           AuditEvent(e.agent.id, e.agent.role, tool, Obj(arguments), "allowed", Some("allowed by OPA policy"),
                      Some(Obj(result)), None, Some(e.at.tookMs), e.at.stamp)
         case ExecutorError(t, message) =>
           AuditEvent(e.agent.id, e.agent.role, tool, Obj(arguments),
                      if t == ExecutorTimeout then "executor_timeout" else "error", Some(message),
                      None, None, Some(e.at.tookMs), e.at.stamp)
         case UnhandledError(message) =>
           AuditEvent(e.agent.id, e.agent.role, tool, Obj(arguments), "error", Some(message),
                      None, None, Some(e.at.tookMs), e.at.stamp))
  }

  /**
    A call in order asks for an approval, is denied, or runs, as the policy decides of it,
    if the engine answers; and is answered what was done, unless the store or the database
    failed.
   */
  lemma CallServed(s: State, d: PolicyData, e: Event)
    requires e.Call? && InOrder(e.agent, e.params)
    ensures var (t, r) := Step(s, d, e);
            var i := Question(e);
            && t.clock == e.at.writtenAt && t.rulings == s.rulings && t.pushes == s.pushes
            && if e.opaUp && RequireApproval(d, i) then
                 if e.at.fault == StoreFails then t == s.(clock := e.at.writtenAt) && r == Crashed
                 else Asks(s, t, e) &&
                      r == if e.at.fault == AuditFails then Crashed else ApprovalPending(e.newId, e.at.now + 900.0)
               else if !(e.opaUp && Allow(d, i)) then
                 var reason := if e.opaUp then "denied by OPA policy" else "policy engine unavailable";
                 Denies(s, t, e, reason) && r == if e.at.fault == AuditFails then Crashed else DeniedByPolicy(reason)
               else
                 Runs(s, t, e) &&
                 r == if e.at.fault == AuditFails then Crashed
                      else if e.execution.Success? then ToolResult(e.execution.result) else ToolFailed(e.execution)
  {
    hide Allow, RequireApproval, InferEnvironment, InScope, InOrder, Asks, Denies, Runs;
    InScopeIsInOrder(e.agent, e.params);
    DecisionIs(d, e);
    if e.opaUp && RequireApproval(d, Question(e)) {
      if e.at.fault != StoreFails {
        AsksIs(s, d, e);
      }
    } else if !(e.opaUp && Allow(d, Question(e))) {
      DeniesIs(s, d, e);
    } else {
      RunsIs(s, d, e);
    }
  }

  lemma DecisionIs(d: PolicyData, e: Event)
    requires e.Call? && InOrder(e.agent, e.params)
    ensures InScope(e.agent, e.params)
    ensures var decision, tool := Decision(d, e), Get(e.params, "name").s;
            && decision.requireApproval == (e.opaUp && RequireApproval(d, Question(e)))
            && decision.allow == (e.opaUp && Allow(d, Question(e)))
            && decision.reason == if !e.opaUp then "policy engine unavailable"
                                  else if decision.requireApproval then
                                    "'" + tool + "' is a destructive action in prod and requires approval"
                                  else if decision.allow then "allowed by OPA policy" else "denied by OPA policy"
  {
    hide Allow, RequireApproval, InferEnvironment, InterceptToolCall, InScope, InOrder;
    InScopeIsInOrder(e.agent, e.params);
  }

  lemma AsksIs(s: State, d: PolicyData, e: Event)
    requires e.Call? && InOrder(e.agent, e.params) && e.opaUp && RequireApproval(d, Question(e))
    requires e.at.fault != StoreFails
    ensures var (t, r) := Step(s, d, e);
            && t.clock == e.at.writtenAt && t.rulings == s.rulings && t.pushes == s.pushes && Asks(s, t, e)
            && r == if e.at.fault == AuditFails then Crashed else ApprovalPending(e.newId, e.at.now + 900.0)
  {
    hide Allow, RequireApproval, InferEnvironment, InScope, InOrder, InterceptToolCall, Decision;
    InScopeIsInOrder(e.agent, e.params);
    DecisionIs(d, e);
  }

  lemma DeniesIs(s: State, d: PolicyData, e: Event)
    requires e.Call? && InOrder(e.agent, e.params)
    requires !(e.opaUp && RequireApproval(d, Question(e))) && !(e.opaUp && Allow(d, Question(e)))
    ensures var (t, r) := Step(s, d, e);
            var reason := if e.opaUp then "denied by OPA policy" else "policy engine unavailable";
            && t.clock == e.at.writtenAt && t.rulings == s.rulings && t.pushes == s.pushes && Denies(s, t, e, reason)
            && r == if e.at.fault == AuditFails then Crashed else DeniedByPolicy(reason)
  {
    hide Allow, RequireApproval, InferEnvironment, InScope, InOrder, InterceptToolCall, Decision;
    InScopeIsInOrder(e.agent, e.params);
    DecisionIs(d, e);
    assert s.audit + [] == s.audit;
  }

  lemma RunsIs(s: State, d: PolicyData, e: Event)
    requires e.Call? && InOrder(e.agent, e.params)
    requires !(e.opaUp && RequireApproval(d, Question(e))) && e.opaUp && Allow(d, Question(e))
    ensures var (t, r) := Step(s, d, e);
            && t.clock == e.at.writtenAt && t.rulings == s.rulings && t.pushes == s.pushes && Runs(s, t, e)
            && r == if e.at.fault == AuditFails then Crashed
                    else if e.execution.Success? then ToolResult(e.execution.result) else ToolFailed(e.execution)
  {
    hide Allow, RequireApproval, InferEnvironment, InScope, InOrder, InterceptToolCall, Decision;
    InScopeIsInOrder(e.agent, e.params);
    DecisionIs(d, e);
    assert s.audit + [] == s.audit;
  }

  predicate NeedsHuman(d: PolicyData, e: Event)
    requires e.Call? && InOrder(e.agent, e.params)
  {
    e.opaUp && RequireApproval(d, Question(e))
  }

  // By one run, with this outcome.
  predicate Grew(s: State, t: State, execution: Execution) {
    && |t.trace| == |s.trace| + 1 && t.trace[..|s.trace|] == s.trace
    && t.trace[|s.trace|].execution == execution
  }

  /**
    An answer says what was done: a result, that an executor succeeded with that very result;
    a failure, that one failed so; a pending approval, that a request was stored which
    expires then; a denial, that it was logged and nothing ran or was stored. An internal
    error says that something failed: the database, the store of a request, or the reading
    of the call.
   */
  lemma AnswerTellsDeed(s: State, d: PolicyData, e: Event)
    requires e.Call? && Enabled(s, e)
    ensures var (t, r) := Step(s, d, e);
            && (r.ToolResult? <==> t.trace != s.trace && e.execution.Success? && Logged(e.at))
            && (r.ToolResult? ==> Grew(s, t, Success(r.result)))
            && (r.ToolFailed? <==> t.trace != s.trace && !e.execution.Success? && Logged(e.at))
            && (r.ToolFailed? ==> Grew(s, t, r.execution))
            && (r.ApprovalPending? <==> t.requests != s.requests && Logged(e.at))
            && (r.ApprovalPending? ==>
                  && r.id !in s.requests && r.id in t.requests && r.id in t.kv
                  && t.kv[r.id].approval.status == Pending && t.kv[r.id].approval.expiresAt == r.expiresAt)
            && (r.DeniedByPolicy? <==> t.audit != s.audit && t.trace == s.trace && t.requests == s.requests)
            && (t.trace != s.trace ==> t.requests == s.requests)
            && (r == Crashed <==>
                  if InOrder(e.agent, e.params) then
                    e.at.fault == AuditFails || (e.at.fault == StoreFails && NeedsHuman(d, e))
                  else
                    var name := Get(e.params, "name");
                    && !Falsy(name) && GivesArguments(e.params)
                    && (!Readable(ArgumentsOf(e.params)) || name.Arr? || name.Obj?))
  {
    hide Step, InOrder, Registered, Readable, Allow, RequireApproval, InferEnvironment;
    if InOrder(e.agent, e.params) {
      CallServed(s, d, e);
    } else {
      CallRefused(s, d, e);
    }
  }

  // ---------------------------------------------------- with the shipped data

  // What the shipped policy grants of a call.
  predicate Permits(agent: Agent, tool: string, arguments: seq<Field>) {
    && Granted(agent.role, tool) && !BlockedOn(tool, Get(arguments, "namespace"))
    && !(Begins(Get(arguments, "namespace"), "prod") && agent.role == "deploy-bot")
  }

  predicate AsksHuman(tool: string, arguments: seq<Field>) {
    || tool in {"exec_into_pod", "apply_k8s_manifest"}
    || (tool in {"restart_deployment", "scale_deployment"} && Begins(Get(arguments, "namespace"), "prod"))
  }

  /**
    With the shipped data and nothing failing, every call in order that the policy permits
    does run its executor, or does wait for an approval if it is a shell, a manifest, or a
    restart or scaling in prod; every other is denied, and nothing runs.
   */
  lemma ShippedCall(s: State, e: Event)
    requires e.Call? && InOrder(e.agent, e.params) && e.opaUp && e.at.fault == NoFault
    ensures var (t, r) := Step(s, DATA, e);
            var tool, arguments := Get(e.params, "name").s, ArgumentsOf(e.params);
            if !Permits(e.agent, tool, arguments) then
              t.trace == s.trace && t.requests == s.requests && r == DeniedByPolicy("denied by OPA policy")
            else if AsksHuman(tool, arguments) then
              Asks(s, t, e) && r == ApprovalPending(e.newId, e.at.now + 900.0)
            else
              && Runs(s, t, e)
              && r == if e.execution.Success? then ToolResult(e.execution.result) else ToolFailed(e.execution)
  {
    hide Step, InOrder, Allow, RequireApproval, InferEnvironment, DATA, Granted, BlockedOn, Asks, Runs;
    CallServed(s, DATA, e);
    ShippedPolicy(Question(e));
    QuestionIs(e);
  }

  lemma QuestionIs(e: Event)
    requires e.Call? && InOrder(e.agent, e.params)
    ensures var i, ns := Question(e), Get(ArgumentsOf(e.params), "namespace");
            && i.role == e.agent.role && i.toolName == Get(e.params, "name").s && i.namespace == ns
            && i.environment in {"prod", "staging", "dev", "unknown"}
            && (i.environment == "prod" <==> Begins(ns, "prod"))
  {
    hide Registered, InferEnvironment;
    ReadableIs(ArgumentsOf(e.params));
    EnvironmentIs(ArgumentsOf(e.params));
  }

  // ------------------------------------------------------- rulings and polls

  // The row and the push of a ruling on this request.
  predicate Tells(row: AuditEvent, push: Push, a: Approval, r: Ruling) {
    var denial := "denied by " + r.decidedBy + if r.note == "" then "" else ": " + r.note;
    && row.agentId == a.agentId && row.role == a.role && row.toolName == a.toolName && row.arguments == Obj(a.arguments)
    && row.approvalId == Some(a.id) && row.durationMs == Some(r.at.tookMs) && row.timestamp == r.at.stamp
    && push.agentId == a.agentId && push.approvalId == a.id && push.toolName == a.toolName
    && if !r.approve then
         && row.decision == "approval_denied" && row.reason == Some(denial) && row.result == None
         && push.status == "denied" && push.detail == Str(denial)
       else
         match r.execution
         case Success(result) =>
           && row.decision == "allowed" && row.reason == Some("approved by " + r.decidedBy)
           && row.result == Some(Obj(result)) && push.status == "approved" && push.detail == Obj(result)
         case ExecutorError(t, message) =>
           && row.decision == (if t == ExecutorTimeout then "executor_timeout" else "error")
           && row.reason == Some(message) && row.result == None
           && push.status == "error" && push.detail == Str(message)
         case UnhandledError(message) =>
           && row.decision == "error" && row.reason == Some(message) && row.result == None
           && push.status == "error" && push.detail == Str(message)
  }

  /**
    A ruling that takes effect is logged and pushed to the agent, with who ruled and why,
    or with the result or the error of the run; and an approval runs the executor on what
    was requested.
   */
  lemma RulingServed(d: PolicyData, events: seq<Event>, e: Event)
    requires IsRun(d, events) && TakesEffect(After(d, events), e) && Enabled(After(d, events), e)
    ensures var s := After(d, events); var (t, r) := Step(s, d, e);
            && Requested(s, e.id) && !Ruled(s, e.id) && t.requests == s.requests
            && e.id in t.rulings && RuledOn(e, e.id, t.rulings[e.id])
            && var a := s.requests[e.id].approval;
            && t.trace == s.trace + (if e.approve then
                                       [ExecRun(a.toolName, a.arguments, OnApproval(e.id), e.execution, e.at)]
                                     else [])
            && (e.at.fault == AuditFails ==> t.audit == s.audit && t.pushes == s.pushes)
            && (e.at.fault != AuditFails ==>
                  && |t.audit| == |s.audit| + 1 && t.audit[..|s.audit|] == s.audit
                  && |t.pushes| == |s.pushes| + 1 && t.pushes[..|s.pushes|] == s.pushes
                  && Tells(t.audit[|s.audit|], t.pushes[|s.pushes|], a, t.rulings[e.id]))
            && r == if e.at.fault == AuditFails then Crashed else DecisionTaken(if e.approve then Approved else Denied)
  {
    hide After, IsRun, Cleared, NeedsApproval, Select, Tells;
    RunKeeps(d, events, e.id);
    RulingIs(After(d, events), d, e);
  }

  lemma RulingIs(s: State, d: PolicyData, e: Event)
    requires TakesEffect(s, e) && RecordKept(s, d, e.id)
    ensures var t := Step(s, d, e).0; var a := s.requests[e.id].approval;
            e.at.fault != AuditFails ==>
              && |t.audit| == |s.audit| + 1 && t.audit[..|s.audit|] == s.audit
              && |t.pushes| == |s.pushes| + 1 && t.pushes[..|s.pushes|] == s.pushes
              && Tells(t.audit[|s.audit|], t.pushes[|s.pushes|], a, RulingOf(e))
  {
    hide Cleared, NeedsApproval;
  }

  /**
    The answer to any poll, after any run, by the approval's history alone: the record as
    it was ruled on, or as it was requested.
   */
  lemma PollAnswer(d: PolicyData, events: seq<Event>, e: Event)
    requires IsRun(d, events) && e.Poll?
    ensures var s := After(d, events); var (t, r) := Step(s, d, e);
            && t == s.(clock := e.at.writtenAt)
            && if e.at.fault == StoreFails then r == Crashed
               else if !Requested(s, e.id) || !Remembered(s, e.id, e.at.now) then r == ApprovalGone
               else
                 && r.StatusReport?
                 && var a, asked := r.approval, s.requests[e.id].approval;
                 && a.id == e.id && a.agentId == asked.agentId && a.role == asked.role && a.toolName == asked.toolName
                 && a.arguments == asked.arguments && a.reason == asked.reason
                 && a.requestedAt == asked.requestedAt && a.expiresAt == asked.expiresAt
                 && if Ruled(s, e.id) then
                      var ruling := s.rulings[e.id];
                      && a.status == (if ruling.approve then Approved else Denied)
                      && a.decidedBy == Some(ruling.decidedBy) && a.decidedAt == Some(ruling.decidedAt)
                    else
                      a.status == Pending && a == asked
  {
    hide After, IsRun, Cleared, NeedsApproval, RulingRow, RulingPush, Select;
    RunKeeps(d, events, e.id);
  }
}
