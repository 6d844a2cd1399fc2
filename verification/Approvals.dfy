/**
  The Redis-backed store of pending approvals: each record lives under its id
  until its time to live runs out, and is decided at most once.
 */
module Approvals {
  import opened Options
  import opened Json

  const APPROVAL_TTL_SECONDS := 900.0

  datatype Status = Pending | Approved | Denied

  datatype Approval = Approval(
    id: string,
    agentId: string,
    role: string,
    toolName: string,
    arguments: seq<Field>,
    reason: string,
    status: Status,
    requestedAt: real,
    expiresAt: real,
    decidedBy: Option<string>,
    decidedAt: Option<real>)

  // A record and the end of its life; None for a key without a time to live.
  datatype Entry = Entry(approval: Approval, deadline: Option<real>)

  type Records = map<string, Entry>

  datatype Outcome = Decided | NotFound | AlreadyDecided

  function NewApproval(id: string, agentId: string, role: string, toolName: string,
                       arguments: seq<Field>, reason: string, now: real): Approval
  {
    Approval(id, agentId, role, toolName, arguments, reason, Pending, now, now + APPROVAL_TTL_SECONDS, None, None)
  }

  predicate Live(e: Entry, now: real) {
    e.deadline.Some? ==> now <= e.deadline.value
  }

  // `get_approval`: a key past its deadline is gone.
  function Lookup(kv: Records, id: string, now: real): Option<Approval> {
    if id in kv && Live(kv[id], now) then Some(kv[id].approval) else None
  }

  function Settle(a: Approval, approve: bool, decidedBy: string, decidedAt: real): Approval {
    a.(status := if approve then Approved else Denied, decidedBy := Some(decidedBy), decidedAt := Some(decidedAt))
  }

  // SET with KEEPTTL: a key that is still there keeps its deadline, one that has
  // expired by then is made anew, without any.
  function KeepTtl(e: Entry, a: Approval, writtenAt: real): Entry {
    Entry(a, if Live(e, writtenAt) then e.deadline else None)
  }

  // What a decision comes to that reads the record at `readAt` and the clock at `now`.
  function DecisionOutcome(kv: Records, id: string, readAt: real, now: real): Outcome {
    match Lookup(kv, id, readAt)
    case None => NotFound
    case Some(a) => if a.status != Pending then AlreadyDecided else if now > a.expiresAt then NotFound else Decided
  }

  class ApprovalStore {
    var kv: Records
    var pending: int

    constructor ()
      ensures kv == map[] && pending == 0
    {
      kv, pending := map[], 0;
    }

    // `now` is read before the record is written at `writtenAt`, from which its life is counted.
    method CreatePendingApproval(id: string, agentId: string, role: string, toolName: string,
                                 arguments: seq<Field>, reason: string, now: real, writtenAt: real)
      returns (a: Approval)
      modifies this
      ensures a == NewApproval(id, agentId, role, toolName, arguments, reason, now)
      ensures kv == old(kv)[id := Entry(a, Some(writtenAt + APPROVAL_TTL_SECONDS))]
      ensures pending == old(pending) + 1
    {
      a := Approval(id, agentId, role, toolName, arguments, reason, Pending,
                    now, now + APPROVAL_TTL_SECONDS, None, None);
      kv := kv[id := Entry(a, Some(writtenAt + APPROVAL_TTL_SECONDS))];
      pending := pending + 1;
    }

    method GetApproval(id: string, now: real) returns (a: Option<Approval>)
      ensures a == Lookup(kv, id, now)
    {
      if id !in kv || !Live(kv[id], now) {
        return None;
      }
      return Some(kv[id].approval);
    }

    method DecideApproval(id: string, approve: bool, decidedBy: string,
                          readAt: real, now: real, decidedAt: real, writtenAt: real)
      returns (a: Option<Approval>, outcome: Outcome)
      modifies this
      ensures outcome == DecisionOutcome(old(kv), id, readAt, now)
      ensures outcome == Decided ==>
                && id in old(kv)
                && a == Some(Settle(old(kv)[id].approval, approve, decidedBy, decidedAt))
                && kv == old(kv)[id := KeepTtl(old(kv)[id], a.value, writtenAt)]
                && pending == old(pending) - 1
      ensures outcome != Decided ==> kv == old(kv) && pending == old(pending) && a == Lookup(kv, id, readAt)
    {
      a := GetApproval(id, readAt);
      if a.None? {
        return None, NotFound;
      }
      var approval := a.value;
      if approval.status != Pending {
        return a, AlreadyDecided;
      }
      if now > approval.expiresAt {
        return a, NotFound;
      }
      approval := approval.(status := if approve then Approved else Denied);
      approval := approval.(decidedBy := Some(decidedBy));
      approval := approval.(decidedAt := Some(decidedAt));
      kv := kv[id := KeepTtl(kv[id], approval, writtenAt)];
      pending := pending - 1;
      return Some(approval), Decided;
    }
  }
}
