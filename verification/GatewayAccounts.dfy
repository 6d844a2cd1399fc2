/**
  The books of a run: the gauge of pending approvals, and the audit log as a
  complete account of the calls, the rulings and the executor runs.
 */
module GatewayAccounts {
  import opened Options
  import opened Json
  import opened AuditRow
  import opened Policy
  import opened Approvals
  import opened Gateway
  import opened GatewayRuns
  import opened GatewaySafety
  import AuditChain
  import AuditWriters

  // -------------------------------------------------------------- the gauge

  function Undecided(s: State): set<string> {
    set id | id in s.kv && s.kv[id].approval.status == Pending
  }

  function UndecidedLive(s: State, now: real): set<string> {
    set id | id in Undecided(s) && Live(s.kv[id], now)
  }

  function UndecidedExpired(s: State, now: real): set<string> {
    set id | id in Undecided(s) && !Live(s.kv[id], now)
  }

  lemma Standing(s: State, d: PolicyData, id: string)
    requires RecordKept(s, d, id)
    ensures id in s.rulings ==> id in s.requests
    ensures id in Undecided(s) <==> id in s.requests && id !in s.rulings
  {
  }

  lemma UndecidedIs(d: PolicyData, events: seq<Event>)
    requires IsRun(d, events)
    ensures var s := After(d, events);
            s.rulings.Keys <= s.requests.Keys && Undecided(s) == s.requests.Keys - s.rulings.Keys
  {
    hide After, IsRun, RecordKept, TracesKept, Undecided;
    var s := After(d, events);
    forall id: string
      ensures id in s.rulings ==> id in s.requests
      ensures id in Undecided(s) <==> id in s.requests && id !in s.rulings
    {
      RunKeeps(d, events, id);
      Standing(s, d, id);
    }
  }

  lemma {:induction false} GaugeIsDifference(d: PolicyData, events: seq<Event>)
    requires IsRun(d, events)
    ensures var s := After(d, events); s.pending == |s.requests| - |s.rulings|
  {
    hide Step, Enabled, RecordKept, TracesKept;
    if events != [] {
      var before, e := events[..|events| - 1], events[|events| - 1];
      GaugeIsDifference(d, before);
      if e.Decide? {
        RunKeeps(d, before, e.id);
      }
      GaugeMoves(After(d, before), d, e);
    }
  }

  lemma GaugeMoves(s: State, d: PolicyData, e: Event)
    requires Enabled(s, e) && (e.Decide? ==> RecordKept(s, d, e.id))
    ensures var t := Step(s, d, e).0;
            t.pending - s.pending == (|t.requests| - |s.requests|) - (|t.rulings| - |s.rulings|)
  {
    hide InScope, Decision, RulingRow, RulingPush, RunRow, Cleared, NeedsApproval;
    if e.Decide? {
      RulingsMove(s, d, e);
    }
  }

  lemma Difference(a: set<string>, b: set<string>)
    requires b <= a
    ensures |a - b| == |a| - |b|
  {
    assert a == (a - b) + b;
  }

  /**
    At any time the gauge is what was requested less what was ruled on: the undecided
    approvals still alive and, as nothing takes these off, the undecided ones that expired.
   */
  lemma GaugeCountsUndecided(d: PolicyData, events: seq<Event>, now: real)
    requires IsRun(d, events)
    ensures var s := After(d, events);
            && s.pending == |s.requests| - |s.rulings|
            && s.pending == |UndecidedLive(s, now)| + |UndecidedExpired(s, now)|
  {
    hide After, IsRun, Undecided, UndecidedLive, UndecidedExpired;
    var s := After(d, events);
    GaugeIsDifference(d, events);
    UndecidedIs(d, events);
    Difference(s.requests.Keys, s.rulings.Keys);
    LiveOrExpired(s, now);
  }

  lemma LiveOrExpired(s: State, now: real)
    ensures |Undecided(s)| == |UndecidedLive(s, now)| + |UndecidedExpired(s, now)|
  {
    hide Undecided, Live;
    assert Undecided(s) == UndecidedLive(s, now) + UndecidedExpired(s, now);
  }

  // ------------------------------------------------------------ the audit log

  // A call in scope whose request for approval, if it needs one, is stored.
  function ActingCall(d: PolicyData): Event -> bool {
    (e: Event) => e.Call? && InScope(e.agent, e.params) &&
                  !(Decision(d, e).requireApproval && e.at.fault == StoreFails)
  }

  // What there is to record: such a call, whatever comes of it, and a ruling that takes effect.
  predicate IsAct(s: State, d: PolicyData, e: Event) {
    ActingCall(d)(e) || TakesEffect(s, e)
  }

  function Acts(d: PolicyData, events: seq<Event>): seq<Event> {
    if events == [] then []
    else
      var before, e := events[..|events| - 1], events[|events| - 1];
      Acts(d, before) + if IsAct(After(d, before), d, e) then [e] else []
  }

  function LogWorks(): Event -> bool {
    (e: Event) => Logged(e.at)
  }

  // The row of this act.
  predicate RowOfAct(row: AuditEvent, e: Event) {
    && row.timestamp == e.at.stamp && row.durationMs == Some(e.at.tookMs)
    && (e.Call? ==>
          && row.agentId == e.agent.id && row.role == e.agent.role && row.arguments.Obj?
          && InterceptToolCall(e.params) == Context(Str(row.toolName), row.arguments.fields))
    && (e.Decide? ==> row.approvalId == Some(e.id))
  }

  ghost predicate RowsOfActs(rows: seq<AuditEvent>, acts: seq<Event>) {
    |rows| == |acts| && forall k {:trigger rows[k]} :: 0 <= k < |rows| ==> RowOfAct(rows[k], acts[k])
  }

  /**
    The log is, row by row and in order, that of the acts: of each call in scope, whatever
    came of it, and of each ruling; all but those whose recording the database failed.
   */
  lemma {:induction false} EveryActIsAudited(d: PolicyData, events: seq<Event>)
    requires IsRun(d, events)
    ensures RowsOfActs(After(d, events).audit, Select(Acts(d, events), LogWorks()))
  {
    hide Step, Enabled, RecordKept, TracesKept, IsAct, RowOfAct, Select;
    if events == [] {
      NothingSelected([], LogWorks());
    } else {
      var before, e := events[..|events| - 1], events[|events| - 1];
      var s := After(d, before);
      EveryActIsAudited(d, before);
      if e.Decide? {
        RunKeeps(d, before, e.id);
      }
      ActRecorded(s, d, e);
      SelectNext(Acts(d, before), e, LogWorks());
      assert Acts(d, before) + [] == Acts(d, before);
    }
  }

  lemma NothingSelected<T>(s: seq<T>, keep: T -> bool)
    requires s == []
    ensures Select(s, keep) == []
  {
  }

  lemma ActRecorded(s: State, d: PolicyData, e: Event)
    requires e.Decide? ==> RecordKept(s, d, e.id)
    ensures var t := Step(s, d, e).0;
            if IsAct(s, d, e) && Logged(e.at) then
              |t.audit| == |s.audit| + 1 && t.audit == s.audit + [t.audit[|s.audit|]] && RowOfAct(t.audit[|s.audit|], e)
            else t.audit == s.audit
  {
    hide RecordKept, CallInScope, DecidePending, RowOfAct;
    if ActingCall(d)(e) {
      CallRecorded(s, d, e);
    } else if TakesEffect(s, e) {
      RulingRecorded(s, d, e);
    } else {
      StaysQuiet(s, d, e);
    }
  }

  lemma CallRecorded(s: State, d: PolicyData, e: Event)
    requires ActingCall(d)(e)
    ensures var t := Step(s, d, e).0;
            if Logged(e.at) then
              |t.audit| == |s.audit| + 1 && t.audit == s.audit + [t.audit[|s.audit|]] && RowOfAct(t.audit[|s.audit|], e)
            else t.audit == s.audit
  {
    hide InferEnvironment, InterceptToolCall, Decision, TOOLS;
  }

  lemma RulingRecorded(s: State, d: PolicyData, e: Event)
    requires TakesEffect(s, e) && RecordKept(s, d, e.id)
    ensures var t := Step(s, d, e).0;
            if Logged(e.at) then
              |t.audit| == |s.audit| + 1 && t.audit == s.audit + [t.audit[|s.audit|]] && RowOfAct(t.audit[|s.audit|], e)
            else t.audit == s.audit
  {
    hide Cleared, NeedsApproval, RulingPush, DenialReason;
  }

  /** The acts are the calls in scope that reached the store and as many callbacks as there are rulings. */
  lemma {:induction false} ActsAreCounted(d: PolicyData, events: seq<Event>)
    requires IsRun(d, events)
    ensures |Acts(d, events)| == |Select(events, ActingCall(d))| + |After(d, events).rulings|
  {
    hide Step, Enabled, RecordKept, TracesKept, TakesEffect, InScope, Decision;
    if events != [] {
      var before, e := events[..|events| - 1], events[|events| - 1];
      ActsAreCounted(d, before);
      if e.Decide? {
        RunKeeps(d, before, e.id);
      }
      EffectOfDecision(After(d, before), e);
      RulingsMove(After(d, before), d, e);
    }
  }

  lemma EffectOfDecision(s: State, e: Event)
    ensures TakesEffect(s, e) ==> e.Decide?
  {
  }

  lemma {:induction false} AllSelected<T>(s: seq<T>, keep: T -> bool)
    ensures |Select(s, keep)| <= |s|
    ensures |Select(s, keep)| == |s| <==> forall x :: x in s ==> keep(x)
  {
    if s != [] {
      var n := |s| - 1;
      AllSelected(s[..n], keep);
      assert s == s[..n] + [s[n]];
    }
  }

  /** The log is complete exactly when the database failed no act. */
  lemma CompleteIff(d: PolicyData, events: seq<Event>)
    requires IsRun(d, events)
    ensures |After(d, events).audit| <= |Acts(d, events)|
    ensures |After(d, events).audit| == |Acts(d, events)| <==> forall e :: e in Acts(d, events) ==> Logged(e.at)
  {
    hide After, IsRun, Acts, RowOfAct, Select;
    EveryActIsAudited(d, events);
    AllSelected(Acts(d, events), LogWorks());
    assert forall e :: LogWorks()(e) <==> Logged(e.at);
  }

  const READER := Agent("agent02", "readonly", {"list_pods"})

  // A call that runs its executor, while the database is down.
  const UNLOGGED: Event :=
    Call(READER, [Field("name", Str("list_pods"))], true, Success([]), "a2", Moment(0.0, 0.0, 0, 0, AuditFails))

  lemma ReaderIsAllowed()
    ensures InScope(READER, UNLOGGED.params) && Enabled(INITIAL, UNLOGGED)
    ensures Decision(DATA, UNLOGGED).allow && !Decision(DATA, UNLOGGED).requireApproval
  {
  }

  /** An executor can have run without any row: the caller gets an internal error, the log stays empty. */
  lemma RunWithoutRow()
    ensures IsRun(DATA, [UNLOGGED])
    ensures var s := After(DATA, [UNLOGGED]); |s.trace| == 1 && s.audit == []
    ensures Step(INITIAL, DATA, UNLOGGED).1 == Crashed
  {
    hide InScope, Decision, TOOLS, DATA, IsRun, After;
    NoEvents();
    ReaderIsAllowed();
    Next(DATA, [], UNLOGGED);
    assert [] + [UNLOGGED] == [UNLOGGED];
  }

  // Rows that report a run of an executor.
  function ReportsRun(): AuditEvent -> bool {
    (row: AuditEvent) => row.decision in {"allowed", "error", "executor_timeout"}
  }

  // The status of a row tells how the executor ended.
  predicate Ends(status: string, e: Execution) {
    && (e.Success? ==> status == "allowed")
    && (e.ExecutorError? && e.errorType == ExecutorTimeout ==> status == "executor_timeout")
    && (e.ExecutorError? && e.errorType != ExecutorTimeout ==> status == "error")
    && (e.UnhandledError? ==> status == "error")
  }

  predicate Describes(row: AuditEvent, s: State, run: ExecRun) {
    && (run.via.OnApproval? ==> Requested(s, run.via.id))
    && row.agentId == RunAgent(s, run).id && row.role == RunAgent(s, run).role
    && row.toolName == run.toolName && row.arguments == Obj(run.arguments)
    && Ends(row.decision, run.execution)
    && (!run.execution.Success? ==> row.reason == Some(run.execution.message))
    && row.result == (if run.execution.Success? then Some(Obj(run.execution.result)) else None)
    && row.approvalId == (match run.via case Direct(_) => None case OnApproval(id) => Some(id))
  }

  function RunLogged(): ExecRun -> bool {
    (run: ExecRun) => Logged(run.at)
  }

  ghost predicate Described(rows: seq<AuditEvent>, s: State, runs: seq<ExecRun>) {
    |rows| == |runs| && forall k {:trigger runs[k]} :: 0 <= k < |rows| ==> Describes(rows[k], s, runs[k])
  }

  /**
    The rows that report a run are, in order, those of the executor runs, each on its
    agent's account; all but the runs whose recording the database failed.
   */
  lemma {:induction false} EveryRunIsAudited(d: PolicyData, events: seq<Event>)
    requires IsRun(d, events)
    ensures var s := After(d, events);
            Described(Select(s.audit, ReportsRun()), s, Select(s.trace, RunLogged()))
  {
    hide Step, Enabled, RecordKept, TracesKept, Describes;
    if events != [] {
      var before, e := events[..|events| - 1], events[|events| - 1];
      EveryRunIsAudited(d, before);
      if e.Decide? {
        RunKeeps(d, before, e.id);
      }
      RunsMove(After(d, before), d, e);
    }
  }

  lemma RunsMove(s: State, d: PolicyData, e: Event)
    requires Enabled(s, e) && (e.Decide? ==> RecordKept(s, d, e.id))
    requires Described(Select(s.audit, ReportsRun()), s, Select(s.trace, RunLogged()))
    ensures var t := Step(s, d, e).0; Described(Select(t.audit, ReportsRun()), t, Select(t.trace, RunLogged()))
  {
    hide Step, RecordKept, Enabled, Select, Describes, ReportsRun, RunLogged;
    var t := Step(s, d, e).0;
    var rows, runs := Select(s.audit, ReportsRun()), Select(s.trace, RunLogged());
    StepExtends(s, d, e);
    RowAdded(s, d, e);
    if |s.audit| < |t.audit| {
      SelectNext(s.audit, t.audit[|s.audit|], ReportsRun());
    }
    if |s.trace| < |t.trace| {
      SelectNext(s.trace, t.trace[|s.trace|], RunLogged());
    }
    forall k | 0 <= k < |runs| ensures Describes(rows[k], t, runs[k]) {
      StillDescribes(rows[k], s, t, runs[k]);
    }
    assert rows + [] == rows && runs + [] == runs;
  }

  lemma StillDescribes(row: AuditEvent, s: State, t: State, run: ExecRun)
    requires Describes(row, s, run) && Extends(s, t)
    ensures Describes(row, t, run)
  {
  }

  // At most one row and one run are new; the row reports a run exactly when there is a new
  // run, the one it describes; a run without a row is one that the log failed.
  predicate AddsRow(s: State, t: State) {
    && (t.audit == s.audit || (|t.audit| == |s.audit| + 1 && t.audit == s.audit + [t.audit[|s.audit|]]))
    && (t.trace == s.trace || (|t.trace| == |s.trace| + 1 && t.trace == s.trace + [t.trace[|s.trace|]]))
    && if |t.audit| > |s.audit| && ReportsRun()(t.audit[|s.audit|]) then
         && |t.trace| > |s.trace| && RunLogged()(t.trace[|s.trace|])
         && Describes(t.audit[|s.audit|], t, t.trace[|s.trace|])
       else t.trace == s.trace || (|t.trace| > |s.trace| && !RunLogged()(t.trace[|s.trace|]))
  }

  lemma RowAdded(s: State, d: PolicyData, e: Event)
    requires Enabled(s, e) && (e.Decide? ==> RecordKept(s, d, e.id))
    ensures AddsRow(s, Step(s, d, e).0)
  {
    hide InScope, CallInScope, DecidePending, RecordKept, Describes, ReportsRun, RunLogged;
    if ActingCall(d)(e) {
      CallAddsRow(s, d, e);
    } else if TakesEffect(s, e) {
      RulingAddsRow(s, d, e);
    } else {
      StaysQuiet(s, d, e);
    }
  }

  lemma CallAddsRow(s: State, d: PolicyData, e: Event)
    requires ActingCall(d)(e)
    ensures AddsRow(s, Step(s, d, e).0)
  {
    hide InScope, InterceptToolCall, Decision;
  }

  lemma RulingAddsRow(s: State, d: PolicyData, e: Event)
    requires TakesEffect(s, e) && RecordKept(s, d, e.id)
    ensures AddsRow(s, Step(s, d, e).0)
  {
    hide Cleared, NeedsApproval, RulingPush, DenialReason;
  }

  // The row is about this request.
  predicate About(row: AuditEvent, a: Approval) {
    row.agentId == a.agentId && row.role == a.role && row.toolName == a.toolName && row.arguments == Obj(a.arguments)
  }

  /**
    What the log and the agent's stream hold about an approval: a pending row once it is
    requested; then, once it is ruled on, one row and one push that say how it ended; less
    what the database failed to record.
   */
  lemma ApprovalIsAudited(d: PolicyData, events: seq<Event>, id: string)
    requires IsRun(d, events)
    ensures var s := After(d, events);
            var rows, pushes := Select(s.audit, RowOf(id)), Select(s.pushes, PushOf(id));
            if !Requested(s, id) then rows == [] && pushes == []
            else
              var q := s.requests[id];
              var asked, ended := if Logged(q.at) then 1 else 0, if RulingLogged(s, id) then 1 else 0;
              && |rows| == asked + ended && |pushes| == ended
              && (forall row :: row in rows ==> About(row, q.approval))
              && (Logged(q.at) ==> rows[0].decision == "pending_approval")
              && (RulingLogged(s, id) ==> TellsEnd(rows[asked], pushes[0], q.approval, s.rulings[id]))
  {
    hide After, IsRun, Select, DenialReason, Cleared, NeedsApproval;
    RunKeeps(d, events, id);
  }

  // The row and the push say how the approval ended.
  predicate TellsEnd(row: AuditEvent, push: Push, a: Approval, r: Ruling) {
    && (if r.approve then Ends(row.decision, r.execution) else row.decision == "approval_denied")
    && push.agentId == a.agentId && push.toolName == a.toolName
    && push.status == (if !r.approve then "denied" else if r.execution.Success? then "approved" else "error")
  }

  // ---------------------------------------------------- into the hash chain

  ghost predicate Loggable(row: AuditEvent) {
    Recordable(row) && row.toolName in TOOLS
  }

  lemma {:induction false} GetIsDistinct(fields: seq<Field>, key: string)
    requires forall i :: 0 <= i < |fields| ==> Distinct(fields[i].value)
    ensures Distinct(Get(fields, key))
  {
    if fields != [] && fields[0].key != key {
      GetIsDistinct(fields[1..], key);
    }
  }

  lemma {:induction false} SelectedFrom<T>(s: seq<T>, keep: T -> bool, x: T)
    requires x in Select(s, keep)
    ensures x in s
  {
    if s != [] && x in Select(s[..|s| - 1], keep) {
      SelectedFrom(s[..|s| - 1], keep, x);
    }
  }

  /**
    Everything the gateway records is fit for the hash chain: a registered tool, and
    arguments and result that are objects with distinct keys.
   */
  lemma {:induction false} AuditIsLoggable(d: PolicyData, events: seq<Event>, k: nat)
    requires IsRun(d, events) && k < |After(d, events).audit|
    ensures Loggable(After(d, events).audit[k])
  {
    hide Step, Enabled, RecordKept, TracesKept, Loggable;
    if events != [] {
      var before, e := events[..|events| - 1], events[|events| - 1];
      var s := After(d, before);
      if e.Decide? {
        RunKeeps(d, before, e.id);
      }
      StepExtends(s, d, e);
      if k < |s.audit| {
        AuditIsLoggable(d, before, k);
      } else {
        if e.Decide? && e.id in s.requests {
          RequestIsLoggable(d, before, e.id);
        }
        NewRowLoggable(s, d, e, k);
      }
    }
  }

  lemma {:induction false} WasEnabled(d: PolicyData, events: seq<Event>, i: nat)
    requires IsRun(d, events) && i < |events| && events[i].Call?
    ensures Distinct(Obj(events[i].params))
  {
    hide Distinct, After, Step;
    if i < |events| - 1 {
      WasEnabled(d, events[..|events| - 1], i);
    }
  }

  lemma RequestIsLoggable(d: PolicyData, events: seq<Event>, id: string)
    requires IsRun(d, events) && id in After(d, events).requests
    ensures var q := After(d, events).requests[id]; Loggable(PendingRow(q.approval, q.at))
  {
    hide After, IsRun, TOOLS, InferEnvironment, NeedsApproval, TracesKept;
    RunKeeps(d, events, id);
    RequestTraced(d, events, id);
    var q := After(d, events).requests[id];
    var i :| 0 <= i < |events| && AskedApproval(events[i], id, q);
    WasEnabled(d, events, i);
    GetIsDistinct(events[i].params, "arguments");
  }

  lemma NewRowLoggable(s: State, d: PolicyData, e: Event, k: nat)
    requires Enabled(s, e) && (e.Decide? ==> RecordKept(s, d, e.id))
    requires |s.audit| <= k < |Step(s, d, e).0.audit|
    requires e.Decide? && e.id in s.requests ==> Loggable(PendingRow(s.requests[e.id].approval, s.requests[e.id].at))
    ensures Loggable(Step(s, d, e).0.audit[k])
  {
    hide RecordKept, CallInScope, DecidePending, Loggable, Enabled;
    if ActingCall(d)(e) {
      CallIsLoggable(s, d, e, k);
    } else if TakesEffect(s, e) {
      RulingIsLoggable(s, d, e, k);
    } else {
      StaysQuiet(s, d, e);
    }
  }

  lemma CallIsLoggable(s: State, d: PolicyData, e: Event, k: nat)
    requires Enabled(s, e) && ActingCall(d)(e) && |s.audit| <= k < |Step(s, d, e).0.audit|
    ensures Loggable(Step(s, d, e).0.audit[k])
  {
    hide InferEnvironment, Decision, TOOLS;
    GetIsDistinct(e.params, "arguments");
  }

  lemma RulingIsLoggable(s: State, d: PolicyData, e: Event, k: nat)
    requires Enabled(s, e) && TakesEffect(s, e) && RecordKept(s, d, e.id)
    requires |s.audit| <= k < |Step(s, d, e).0.audit|
    requires e.id in s.requests ==> Loggable(PendingRow(s.requests[e.id].approval, s.requests[e.id].at))
    ensures Loggable(Step(s, d, e).0.audit[k])
  {
    hide NeedsApproval, RulingPush, TOOLS, Cleared, Message, DenialReason;
  }

  // A row's draft as the gateway makes it: a uuid, and an event it recorded.
  ghost predicate DraftOf(s: State, draft: AuditWriters.Draft) {
    |draft.id| == 36 && draft.event in s.audit && '{' !in draft.event.agentId
  }

  /**
    Two gateways whose logs, written by any interleaving of writers, end in the same
    newest hash recorded the same history, unless a hash collision is at hand.
   */
  lemma GatewayHeadCommits(p: Platform, d: PolicyData, events1: seq<Event>, events2: seq<Event>,
                           run1: seq<AuditWriters.Action>, run2: seq<AuditWriters.Action>)
    requires p.Valid() && IsRun(d, events1) && IsRun(d, events2)
    requires AuditWriters.IsRun(p, run1) && AuditWriters.IsRun(p, run2)
    requires forall draft :: draft in AuditWriters.Begun(run1) ==> DraftOf(After(d, events1), draft)
    requires forall draft :: draft in AuditWriters.Begun(run2) ==> DraftOf(After(d, events2), draft)
    requires AuditWriters.After(p, run1).table != [] && AuditWriters.After(p, run2).table != []
    requires AuditWriters.NewestHash(AuditWriters.After(p, run1).table) ==
             AuditWriters.NewestHash(AuditWriters.After(p, run2).table)
    ensures var t, u := AuditWriters.After(p, run1).table, AuditWriters.After(p, run2).table;
            AuditChain.SameHistory(t, u) || AuditChain.Broken(p, t, u)
  {
    hide *;
    DraftsAreFit(p, d, events1, run1);
    DraftsAreFit(p, d, events2, run2);
    AuditWriters.SameHeadSameHistory(p, run1, run2);
  }

  /**
    A gateway's newest hash, kept elsewhere, anchors what it recorded: any other gap-free
    table that verifies and ends in that hash has, row by row, the same text, and where its
    rows are legible they agree with the recorded ones but for the cut between agent id and
    tool name, unless a hash collision is at hand.
   */
  lemma GatewayHeadAnchors(p: Platform, d: PolicyData, events: seq<Event>, run: seq<AuditWriters.Action>, u: seq<Row>)
    requires p.Valid() && IsRun(d, events) && AuditWriters.IsRun(p, run)
    requires forall draft :: draft in AuditWriters.Begun(run) ==> DraftOf(After(d, events), draft)
    requires AuditChain.GapFree(u) && AuditChain.IsVerdict(p, u, u, AuditChain.Pass)
    requires AuditWriters.After(p, run).table != [] && u != []
    requires AuditWriters.NewestHash(AuditWriters.After(p, run).table) == u[|u| - 1].rowHash
    ensures var t := AuditWriters.After(p, run).table;
            || AuditChain.Broken(p, t, u)
            || (&& AuditChain.SameTexts(p, t, u)
                && forall i :: 0 <= i < |u| && Legible(u[i]) ==> i < |t| && SameButCut(t[i], u[i]))
  {
    hide *;
    DraftsAreFit(p, d, events, run);
    AuditWriters.HeadAnchorsHistory(p, run, u);
    if AuditChain.SameTexts(p, AuditWriters.After(p, run).table, u) {
      AuditWriters.SameLength(p, AuditWriters.After(p, run).table, u);
    }
  }

  lemma DraftsAreFit(p: Platform, d: PolicyData, events: seq<Event>, run: seq<AuditWriters.Action>)
    requires IsRun(d, events)
    requires forall draft :: draft in AuditWriters.Begun(run) ==> DraftOf(After(d, events), draft)
    ensures forall draft :: draft in AuditWriters.Begun(run) ==> AuditWriters.GatewayDraft(draft)
  {
    hide After, IsRun, AuditWriters.Begun, TOOLS;
    forall draft | draft in AuditWriters.Begun(run) ensures AuditWriters.GatewayDraft(draft) {
      var k: nat :| k < |After(d, events).audit| && After(d, events).audit[k] == draft.event;
      AuditIsLoggable(d, events, k);
    }
  }
}
