/**
  What every run of the gateway promises: no executor runs without leave, an
  approval is ruled on and run at most once, a ruling is never forgotten, and the
  audit log accounts for everything that was done.
 */
module GatewaySafety {
  import opened Options
  import opened Json
  import opened AuditRow
  import opened Policy
  import opened Approvals
  import opened Gateway
  import opened GatewayRuns

  // ------------------------------------------------------------ authorisation

  // The call that ran it: the policy engine answered, on this agent, tool and arguments.
  predicate Asked(e: Event, run: ExecRun) {
    && e.Call? && e.opaUp && run.via == Direct(e.agent) && run.execution == e.execution && run.at == e.at
    && InterceptToolCall(e.params) == Context(Str(run.toolName), run.arguments)
  }

  ghost predicate RanDirectly(d: PolicyData, events: seq<Event>, run: ExecRun) {
    && run.via.Direct?
    && Cleared(d, run.via.agent, run.toolName, run.arguments)
    && !NeedsApproval(d, run.via.agent, run.toolName, run.arguments)
    && exists j :: 0 <= j < |events| && Asked(events[j], run)
  }

  // The call that made a request: the policy engine answered, on this agent, tool and arguments.
  predicate AskedApproval(e: Event, id: string, q: Request) {
    && e.Call? && e.opaUp && e.newId == id && e.agent == q.agent && e.at == q.at
    && q.approval.requestedAt == e.at.now
    && InterceptToolCall(e.params) == Context(Str(q.approval.toolName), q.approval.arguments)
  }

  predicate RuledOn(e: Event, id: string, r: Ruling) {
    && e.Decide? && e.id == id && r.approve == e.approve && r.decidedBy == e.decidedBy && r.note == e.note
    && r.decidedAt == e.decidedAt && r.execution == e.execution && r.at == e.at
  }

  // A call asked for it, and a later callback ruled on it.
  ghost predicate AskedThenRuled(events: seq<Event>, id: string, q: Request, r: Ruling) {
    exists i, j :: 0 <= i < j < |events| && AskedApproval(events[i], id, q) && RuledOn(events[j], id, r)
  }

  // On behalf of the requesting agent, on what was requested, after an approval in time.
  ghost predicate RanOnApproval(d: PolicyData, events: seq<Event>, run: ExecRun) {
    var s := After(d, events);
    && run.via.OnApproval? && ApprovedBy(s, run.via.id)
    && var q := s.requests[run.via.id];
    && run.toolName == q.approval.toolName && run.arguments == q.approval.arguments
    && Cleared(d, q.agent, run.toolName, run.arguments)
    && NeedsApproval(d, q.agent, run.toolName, run.arguments)
    && RuledInTime(q, s.rulings[run.via.id])
    && AskedThenRuled(events, run.via.id, q, s.rulings[run.via.id])
  }

  /** Every run of an executor was allowed by the policy, directly or with an approval where it needs one. */
  lemma RunsAreAuthorised(d: PolicyData, events: seq<Event>, k: nat)
    requires IsRun(d, events) && k < |After(d, events).trace|
    ensures var s := After(d, events);
            RanDirectly(d, events, s.trace[k]) || RanOnApproval(d, events, s.trace[k])
  {
    hide Select, Cleared, NeedsApproval, After, IsRun, RanDirectly, AskedThenRuled;
    var s := After(d, events);
    var run := s.trace[k];
    match run.via
    case Direct(_) => DirectRuns(d, events, k);
    case OnApproval(id) =>
      RunKeeps(d, events, id);
      Selected(s.trace, RunOf(id), k);
      assert run in RunsDue(s, id);
      RulingTraced(d, events, id);
  }

  lemma {:induction false} RequestTraced(d: PolicyData, events: seq<Event>, id: string)
    requires IsRun(d, events) && Requested(After(d, events), id)
    ensures exists i :: 0 <= i < |events| && AskedApproval(events[i], id, After(d, events).requests[id])
  {
    hide Step, Enabled, AskedApproval, RecordKept, TracesKept;
    if events != [] {
      var n := |events| - 1;
      var before, e := events[..n], events[n];
      var s := After(d, before);
      if Requested(s, id) {
        if e.Decide? {
          RunKeeps(d, before, e.id);
        }
        StepExtends(s, d, e);
        RequestTraced(d, before, id);
        var i :| 0 <= i < n && AskedApproval(before[i], id, s.requests[id]);
        assert events[i] == before[i];
      } else {
        NewRequest(s, d, e, id);
        assert events[n] == e;
      }
    }
  }

  lemma NewRequest(s: State, d: PolicyData, e: Event, id: string)
    requires !Requested(s, id) && Requested(Step(s, d, e).0, id)
    ensures AskedApproval(e, id, Step(s, d, e).0.requests[id])
  {
    hide RulingRow, RulingPush, RunRow, PendingRow, TOOLS, InferEnvironment, InterceptToolCall, Allow, RequireApproval;
  }

  lemma {:induction false} RulingTraced(d: PolicyData, events: seq<Event>, id: string)
    requires IsRun(d, events) && Ruled(After(d, events), id)
    ensures var s := After(d, events); AskedThenRuled(events, id, s.requests[id], s.rulings[id])
  {
    hide Step, Enabled, AskedApproval, RecordKept, TracesKept;
    if events != [] {
      var n := |events| - 1;
      var before, e := events[..n], events[n];
      var s := After(d, before);
      RunKeeps(d, before, id);
      RulingNeedsRequest(s, d, id);
      if e.Decide? {
        RunKeeps(d, before, e.id);
      }
      StepExtends(s, d, e);
      RulingsMove(s, d, e);
      if Ruled(s, id) {
        RulingTraced(d, before, id);
        var i, j :| 0 <= i < j < n &&
                    AskedApproval(before[i], id, s.requests[id]) && RuledOn(before[j], id, s.rulings[id]);
        assert events[i] == before[i] && events[j] == before[j];
      } else {
        RunKeeps(d, events, id);
        RulingIsOfRequest(s, d, e, id);
        RequestTraced(d, before, id);
        var i :| 0 <= i < n && AskedApproval(before[i], id, s.requests[id]);
        assert events[i] == before[i] && RuledOn(events[n], id, After(d, events).rulings[id]);
      }
    }
  }

  lemma RulingNeedsRequest(s: State, d: PolicyData, id: string)
    requires RecordKept(s, d, id)
    ensures id in s.rulings ==> Requested(s, id)
  {
  }

  // A decision that takes effect is on a request made before.
  lemma RulingIsOfRequest(s: State, d: PolicyData, e: Event, id: string)
    requires RecordKept(s, d, id) && id !in s.rulings && id in Step(s, d, e).0.rulings
    ensures Requested(s, id)
  {
    hide InScope, Decision, RulingRow, RulingPush, RunRow, Cleared, NeedsApproval;
  }

  lemma {:induction false} DirectRuns(d: PolicyData, events: seq<Event>, k: nat)
    requires IsRun(d, events) && k < |After(d, events).trace| && After(d, events).trace[k].via.Direct?
    ensures RanDirectly(d, events, After(d, events).trace[k])
  {
    hide Cleared, NeedsApproval, Step;
    if events != [] {
      var n := |events| - 1;
      var before, e := events[..n], events[n];
      var s, run := After(d, before), After(d, events).trace[k];
      if k < |s.trace| {
        TraceGrows(s, d, e);
        DirectRuns(d, before, k);
        var j :| 0 <= j < n && Asked(before[j], run);
        assert Asked(events[j], run);
      } else {
        NewDirectRun(s, d, e, k);
        assert Asked(events[n], run);
      }
    }
  }

  lemma TraceGrows(s: State, d: PolicyData, e: Event)
    ensures s.trace <= Step(s, d, e).0.trace
  {
    hide InScope, Decision, RulingRow, RulingPush, RunRow;
  }

  lemma NewDirectRun(s: State, d: PolicyData, e: Event, k: nat)
    requires |s.trace| <= k < |Step(s, d, e).0.trace| && Step(s, d, e).0.trace[k].via.Direct?
    ensures var run := Step(s, d, e).0.trace[k];
            && Asked(e, run)
            && Cleared(d, run.via.agent, run.toolName, run.arguments)
            && !NeedsApproval(d, run.via.agent, run.toolName, run.arguments)
  {
    hide RulingRow, RulingPush, RunRow, PendingRow, TOOLS, InferEnvironment, InterceptToolCall, Allow, RequireApproval;
  }

  // On whose behalf an executor ran.
  function RunAgent(s: State, run: ExecRun): Agent
    requires run.via.OnApproval? ==> Requested(s, run.via.id)
  {
    match run.via
    case Direct(agent) => agent
    case OnApproval(id) => s.requests[id].agent
  }

  predicate InProd(arguments: seq<Field>) {
    Namespace(arguments).Str? && "prod" <= Namespace(arguments).s
  }

  /**
    With the shipped policy data: the blocked tools never run on kube-system; a shell
    or a manifest runs only on an approval; a destructive tool runs in a "prod" namespace
    only on an approval, and never for the deploy bot; no read-only agent changes anything;
    no ticket is ever opened. A Jenkins job, though listed as destructive, never waits for
    an approval.
   */
  lemma DangerousRuns(events: seq<Event>, k: nat)
    requires IsRun(DATA, events) && k < |After(DATA, events).trace|
    ensures var s := After(DATA, events);
            var run := s.trace[k];
            var tool := run.toolName;
            && (tool in {"restart_deployment", "exec_into_pod", "apply_k8s_manifest"} ==>
                  Namespace(run.arguments) != Str("kube-system"))
            && (tool in {"exec_into_pod", "apply_k8s_manifest"} ==> RanOnApproval(DATA, events, run))
            && (tool in {"restart_deployment", "scale_deployment", "trigger_jenkins_job"} && InProd(run.arguments) ==>
                  RanOnApproval(DATA, events, run))
            && (run.via.OnApproval? ==> RanOnApproval(DATA, events, run))
            && tool != "open_ticket" && (tool == "trigger_jenkins_job" ==> run.via.Direct?)
            && (InProd(run.arguments) ==> RunAgent(s, run).role != "deploy-bot")
            && (RunAgent(s, run).role == "readonly" ==>
                  tool in {"get_pod_logs", "list_pods", "get_deployment_status", "query_terraform_plan",
                           "get_jenkins_job_status", "read_prometheus_metrics", "read_ticket"})
  {
    hide TOOLS, DATA, After, IsRun, Cleared, NeedsApproval, RuledInTime, InProd;
    RunsAreAuthorised(DATA, events, k);
    var s := After(DATA, events);
    var run := s.trace[k];
    ClearedByData(RunAgent(s, run), run.toolName, run.arguments);
  }

  lemma ClearedByData(agent: Agent, tool: string, arguments: seq<Field>)
    requires Cleared(DATA, agent, tool, arguments)
    ensures tool in {"restart_deployment", "exec_into_pod", "apply_k8s_manifest"} ==>
              Namespace(arguments) != Str("kube-system")
    ensures tool in {"exec_into_pod", "apply_k8s_manifest"} ==> NeedsApproval(DATA, agent, tool, arguments)
    ensures tool in {"restart_deployment", "scale_deployment", "trigger_jenkins_job"} && InProd(arguments) ==>
              NeedsApproval(DATA, agent, tool, arguments)
    ensures tool != "open_ticket"
    ensures tool == "trigger_jenkins_job" ==> !NeedsApproval(DATA, agent, tool, arguments)
    ensures InProd(arguments) ==> agent.role != "deploy-bot"
    ensures agent.role == "readonly" ==>
              tool in {"get_pod_logs", "list_pods", "get_deployment_status", "query_terraform_plan",
                       "get_jenkins_job_status", "read_prometheus_metrics", "read_ticket"}
  {
    hide TOOLS;
  }

  // ------------------------------------------------------------- at most once

  /**
    An approval runs its executor at most once: exactly when it was approved, in time,
    and then on the tool and arguments it was requested for; denied, expired and unknown
    ones never.
   */
  lemma ApprovalRunsOnce(d: PolicyData, events: seq<Event>, id: string)
    requires IsRun(d, events)
    ensures var s := After(d, events);
            var runs := Select(s.trace, RunOf(id));
            if ApprovedBy(s, id) then
              && |runs| == 1
              && runs[0].toolName == s.requests[id].approval.toolName
              && runs[0].arguments == s.requests[id].approval.arguments
              && RuledInTime(s.requests[id], s.rulings[id])
            else runs == []
  {
    hide Select, After, IsRun;
    RunKeeps(d, events, id);
  }

  // How often a decision on this approval took effect.
  function DecisionsTaken(d: PolicyData, events: seq<Event>, id: string): nat {
    if events == [] then 0
    else
      var before, e := events[..|events| - 1], events[|events| - 1];
      DecisionsTaken(d, before, id) +
      if TakesEffect(After(d, before), e) && e.id == id then 1 else 0
  }

  /** However many callbacks arrive for an approval, at most one takes effect. */
  lemma {:induction false} DecidedAtMostOnce(d: PolicyData, events: seq<Event>, id: string)
    requires IsRun(d, events)
    ensures DecisionsTaken(d, events, id) == if id in After(d, events).rulings then 1 else 0
  {
    hide Step;
    if events != [] {
      var before, e := events[..|events| - 1], events[|events| - 1];
      DecidedAtMostOnce(d, before, id);
      if e.Decide? {
        RunKeeps(d, before, e.id);
      }
      RulingsMove(After(d, before), d, e);
    }
  }

  // A step adds a ruling exactly when its decision takes effect, and never changes one.
  lemma RulingsMove(s: State, d: PolicyData, e: Event)
    requires e.Decide? ==> RecordKept(s, d, e.id)
    ensures var t := Step(s, d, e).0;
            if TakesEffect(s, e) then
              e.id !in s.rulings && t.rulings == s.rulings[e.id := RulingOf(e)]
            else t.rulings == s.rulings
  {
    hide InScope, Decision, RulingRow, RulingPush, RunRow, Cleared, NeedsApproval;
  }

  // ----------------------------------------------------------------- lifetime

  // What a callback for an approval is answered, by its history alone.
  function AnswerDue(s: State, id: string, approve: bool, readAt: real, now: real): Response {
    if !Requested(s, id) then ApprovalGone
    else if Ruled(s, id) then
      if Remembered(s, id, readAt)
      then ApprovalConflict(if s.rulings[id].approve then Approved else Denied)
      else ApprovalGone
    else if now <= s.requests[id].approval.expiresAt then DecisionTaken(if approve then Approved else Denied)
    else ApprovalGone
  }

  // A record lives to the deadline set at its creation, and for good if its ruling was
  // written only after that.
  predicate Remembered(s: State, id: string, now: real)
    requires Requested(s, id)
  {
    now <= Deadline(s.requests[id]) || (Ruled(s, id) && s.rulings[id].at.writtenAt > Deadline(s.requests[id]))
  }

  // A store that fails, and a log that fails once a ruling took effect, end in an internal error.
  function CallbackDue(s: State, e: Event): Response
    requires e.Decide?
  {
    if e.at.fault == StoreFails then Crashed
    else
      var due := AnswerDue(s, e.id, e.approve, e.readAt, e.at.now);
      if due.DecisionTaken? then Answer(e.at, due) else due
  }

  /** The answer to any callback, after any run. */
  lemma CallbackAnswer(d: PolicyData, events: seq<Event>, e: Event)
    requires IsRun(d, events) && e.Decide? && Enabled(After(d, events), e)
    ensures Step(After(d, events), d, e).1 == CallbackDue(After(d, events), e)
  {
    hide After, IsRun, Cleared, NeedsApproval, RulingRow, RulingPush, Select;
    RunKeeps(d, events, e.id);
  }

  // What was requested, ruled, run, pushed and logged stays as it was.
  predicate Extends(s: State, t: State) {
    && s.clock <= t.clock
    && (forall id :: id in s.requests ==> id in t.requests && t.requests[id] == s.requests[id])
    && (forall id :: id in s.rulings ==> id in t.rulings && t.rulings[id] == s.rulings[id])
    && s.trace <= t.trace && s.pushes <= t.pushes && s.audit <= t.audit
  }

  lemma StepExtends(s: State, d: PolicyData, e: Event)
    requires Enabled(s, e) && (e.Decide? ==> RecordKept(s, d, e.id))
    ensures Extends(s, Step(s, d, e).0)
  {
    hide InScope, CallInScope, DecidePending, RecordKept, Extends;
    if e.Call? && InScope(e.agent, e.params) {
      CallExtends(s, d, e);
    } else if TakesEffect(s, e) {
      RulingExtends(s, d, e);
    } else {
      StaysQuiet(s, d, e);
      QuietExtends(s, e.at.writtenAt);
    }
  }

  lemma QuietExtends(s: State, clock: real)
    requires s.clock <= clock
    ensures Extends(s, s.(clock := clock))
  {
  }

  lemma CallExtends(s: State, d: PolicyData, e: Event)
    requires Enabled(s, e) && e.Call? && InScope(e.agent, e.params)
    ensures Extends(s, Step(s, d, e).0)
  {
    hide InScope, InterceptToolCall, Decision, RunRow, PendingRow;
  }

  lemma RulingExtends(s: State, d: PolicyData, e: Event)
    requires Enabled(s, e) && TakesEffect(s, e) && RecordKept(s, d, e.id)
    ensures Extends(s, Step(s, d, e).0)
  {
    hide RulingRow, RulingPush, Cleared, NeedsApproval;
  }

  /** History only grows. */
  lemma {:induction false} HistoryIsKept(d: PolicyData, events: seq<Event>, later: seq<Event>)
    requires IsRun(d, events + later)
    ensures IsRun(d, events) && Extends(After(d, events), After(d, events + later))
  {
    hide Step, Enabled;
    if later == [] {
      assert events + later == events;
    } else {
      var n := |later| - 1;
      var before := events + later[..n];
      assert (events + later)[..|events + later| - 1] == before && (events + later)[|events + later| - 1] == later[n];
      HistoryIsKept(d, events, later[..n]);
      if later[n].Decide? {
        RunKeeps(d, before, later[n].id);
      }
      StepExtends(After(d, before), d, later[n]);
      ExtendsOn(After(d, events), After(d, before), After(d, events + later));
    }
  }

  lemma ExtendsOn(s: State, t: State, u: State)
    requires Extends(s, t) && Extends(t, u)
    ensures Extends(s, u)
  {
  }

  // When a callback or a poll reads the record.
  function ReadAt(e: Event): real {
    if e.Decide? then e.readAt else e.at.now
  }

  /**
    Once ruled on, an approval keeps its ruling: whatever happens later, a callback or a
    poll finds that same ruling until the deadline set when it was requested, and nothing
    after it; but if the ruling was written only after that deadline, the record stays.
    A callback changes nothing.
   */
  lemma RulingIsFinal(d: PolicyData, events: seq<Event>, later: seq<Event>, e: Event)
    requires IsRun(d, events + later) && Enabled(After(d, events + later), e)
    requires (e.Decide? || e.Poll?) && Ruled(After(d, events), e.id)
    ensures var s, t := After(d, events), After(d, events + later);
            var r := s.rulings[e.id];
            var response := Step(t, d, e).1;
            && Step(t, d, e).0 == t.(clock := e.at.writtenAt)
            && response == if e.at.fault == StoreFails then Crashed
                           else if !Remembered(s, e.id, ReadAt(e)) then ApprovalGone
                           else if e.Decide? then ApprovalConflict(if r.approve then Approved else Denied)
                           else StatusReport(Settle(s.requests[e.id].approval, r.approve, r.decidedBy, r.decidedAt))
  {
    hide After, IsRun, Cleared, NeedsApproval, RulingRow, RulingPush, Select;
    HistoryIsKept(d, events, later);
    RunKeeps(d, events + later, e.id);
  }

  // ------------------------------------------------------------ a late ruling

  const OPERATOR := Agent("agent01", "sre1", {"exec_into_pod"})

  // A shell is asked for at time 0, and approved as it expires; the ruling is written a second later.
  const LATE_RULING: seq<Event> := [
    Call(OPERATOR, [Field("name", Str("exec_into_pod"))], true, Success([]), "a1", Moment(0.0, 0.0, 0, 0, NoFault)),
    Decide("a1", true, "bob", "", 900.0, 900.0, Success([]), Moment(900.0, 901.0, 0, 0, NoFault))]

  lemma Next(d: PolicyData, before: seq<Event>, e: Event)
    requires IsRun(d, before) && Enabled(After(d, before), e)
    ensures IsRun(d, before + [e]) && After(d, before + [e]) == Step(After(d, before), d, e).0
  {
    assert (before + [e])[..|before|] == before;
  }

  lemma ShellIsAsked()
    ensures var e := LATE_RULING[0];
            && InScope(e.agent, e.params) && Decision(DATA, e).requireApproval && Enabled(INITIAL, e)
  {
  }

  lemma AskedState()
    ensures var e := LATE_RULING[0];
            var s := Step(INITIAL, DATA, e).0;
            && s.clock == 0.0 && "a1" in s.requests && s.rulings == map[]
            && s.requests["a1"].at == e.at && "a1" in s.kv && s.kv["a1"].deadline == Some(900.0)
            && s.kv["a1"].approval.status == Pending && s.kv["a1"].approval.expiresAt == 900.0
  {
    hide InScope, Decision, TOOLS, DATA;
    ShellIsAsked();
  }

  /**
    A run in which the ruling is written a second past the deadline: however long after,
    a poll still finds the record and a callback still conflicts with it.
   */
  lemma LateRulingStays(t: real)
    requires t >= 901.0
    ensures IsRun(DATA, LATE_RULING)
    ensures var s := After(DATA, LATE_RULING);
            var poll := Poll("a1", Moment(t, t, 0, 0, NoFault));
            && Ruled(s, "a1") && s.rulings["a1"].at.writtenAt > Deadline(s.requests["a1"])
            && Enabled(s, poll)
            && Step(s, DATA, poll).1.StatusReport? && Step(s, DATA, poll).1.approval.status == Approved
  {
    hide InScope, Decision, TOOLS, DATA, IsRun, After, RulingRow, RulingPush;
    var call, decide := LATE_RULING[0], LATE_RULING[1];
    NoEvents();
    ShellIsAsked();
    AskedState();
    Next(DATA, [], call);
    assert [] + [call] == [call];
    var s := After(DATA, [call]);
    Next(DATA, [call], decide);
    assert [call] + [decide] == LATE_RULING;
  }

  lemma NoEvents()
    ensures IsRun(DATA, []) && After(DATA, []) == INITIAL
  {
  }
}
