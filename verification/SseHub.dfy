/**
  The fan-out of approval results to an agent's open event streams: each open
  subscription has a queue of its own, and publishing puts the event on all of
  the agent's queues.
 */
module SseHub {
  import opened Options

  // ----------------------------------------------------- the hub as a value

  // Queues are named by the order of their creation.
  datatype Hub<E> = Hub(subscribers: map<string, seq<nat>>, queues: map<nat, seq<E>>, next: nat)

  // `_subscribers.get(agent_id, [])`
  function Listeners(subscribers: map<string, seq<nat>>, agentId: string): seq<nat> {
    if agentId in subscribers then subscribers[agentId] else []
  }

  // `list.remove`: the first occurrence goes.
  function Remove(list: seq<nat>, q: nat): seq<nat> {
    if list == [] then []
    else if list[0] == q then list[1..]
    else [list[0]] + Remove(list[1..], q)
  }

  function Registered(subscribers: map<string, seq<nat>>, agentId: string, q: nat): map<string, seq<nat>> {
    subscribers[agentId := Listeners(subscribers, agentId) + [q]]
  }

  function Deregistered(subscribers: map<string, seq<nat>>, agentId: string, q: nat): map<string, seq<nat>> {
    var rest := Remove(Listeners(subscribers, agentId), q);
    if rest == [] then subscribers - {agentId} else subscribers[agentId := rest]
  }

  function PushAll<E>(queues: map<nat, seq<E>>, list: seq<nat>, event: E): map<nat, seq<E>> {
    if list == [] then queues
    else
      var before := PushAll(queues, list[..|list| - 1], event);
      var q := list[|list| - 1];
      if q in before then before[q := before[q] + [event]] else before
  }

  // --------------------------------------------------------------- the hub

  class EventHub<E> {
    var subscribers: map<string, seq<nat>>
    var queues: map<nat, seq<E>>
    var next: nat

    ghost function Value(): Hub<E>
      reads this
    {
      Hub(subscribers, queues, next)
    }

    constructor ()
      ensures Value() == Hub(map[], map[], 0)
    {
      subscribers, queues, next := map[], map[], 0;
    }

    // Entering `subscribe`
    method Enter(agentId: string) returns (q: nat)
      modifies this
      ensures q == old(next)
      ensures Value() == Apply(old(Value()), Subscribe(agentId))
    {
      q := next;
      next := next + 1;
      queues := queues[q := []];
      if agentId !in subscribers {
        subscribers := subscribers[agentId := []];
      }
      subscribers := subscribers[agentId := subscribers[agentId] + [q]];
    }

    // Leaving `subscribe`
    method Exit(agentId: string, q: nat)
      requires agentId in subscribers && q in subscribers[agentId]
      modifies this
      ensures Value() == Apply(old(Value()), Unsubscribe(agentId, q))
    {
      subscribers := subscribers[agentId := Remove(subscribers[agentId], q)];
      if subscribers[agentId] == [] {
        subscribers := subscribers - {agentId};
        assert subscribers == old(subscribers) - {agentId};
      }
    }

    method Send(agentId: string, event: E)
      requires forall q :: q in Listeners(subscribers, agentId) ==> q in queues
      modifies this`queues
      ensures Value() == Apply(old(Value()), Publish(agentId, event))
    {
      if agentId !in subscribers {
        return;
      }
      var list := subscribers[agentId];
      for i := 0 to |list|
        invariant queues == PushAll(old(queues), list[..i], event)
        invariant queues.Keys == old(queues.Keys)
      {
        assert list[..i + 1][..i] == list[..i];
        queues := queues[list[i] := queues[list[i]] + [event]];
      }
      assert list[..|list|] == list;
    }

    // `queue.get`, giving up when nothing comes
    method Receive(q: nat) returns (event: Option<E>)
      requires q in queues
      modifies this`queues
      ensures Taken(event) == First(old(queues)[q])
      ensures Value() == Apply(old(Value()), Get(q))
    {
      if queues[q] == [] {
        return None;
      }
      event := Some(queues[q][0]);
      queues := queues[q := queues[q][1..]];
    }
  }

  // -------------------------------------------------------------------- runs

  datatype Action<E> =
    | Subscribe(agentId: string)
    | Unsubscribe(agentId: string, q: nat)
    | Publish(agentId: string, event: E)
    | Get(q: nat)

  // What a reader that got this has taken.
  function Taken<E>(event: Option<E>): seq<E> {
    if event.Some? then [event.value] else []
  }

  function Apply<E>(h: Hub<E>, a: Action<E>): Hub<E> {
    match a
    case Subscribe(agentId) =>
      Hub(Registered(h.subscribers, agentId, h.next), h.queues[h.next := []], h.next + 1)
    case Unsubscribe(agentId, q) => h.(subscribers := Deregistered(h.subscribers, agentId, q))
    case Publish(agentId, event) => h.(queues := PushAll(h.queues, Listeners(h.subscribers, agentId), event))
    case Get(q) =>
      if q in h.queues && h.queues[q] != [] then h.(queues := h.queues[q := h.queues[q][1..]]) else h
  }

  function After<E>(actions: seq<Action<E>>): Hub<E> {
    if actions == [] then Hub(map[], map[], 0)
    else Apply(After(actions[..|actions| - 1]), actions[|actions| - 1])
  }

  // Whose subscription each queue is, in the order of creation.
  function Opened<E>(actions: seq<Action<E>>): seq<string> {
    if actions == [] then []
    else
      var a := actions[|actions| - 1];
      Opened(actions[..|actions| - 1]) + if a.Subscribe? then [a.agentId] else []
  }

  // Open, and the agent's.
  predicate IsOpen<E(==)>(actions: seq<Action<E>>, agentId: string, q: nat) {
    q < |Opened(actions)| && Opened(actions)[q] == agentId && Unsubscribe(agentId, q) !in actions
  }

  // A subscription is left once, by the agent that entered it; queues read are queues made.
  ghost predicate IsRun<E>(actions: seq<Action<E>>) {
    actions == [] ||
    var before, a := actions[..|actions| - 1], actions[|actions| - 1];
    && IsRun(before)
    && (a.Unsubscribe? ==> IsOpen(before, a.agentId, a.q))
    && (a.Get? ==> a.q < |Opened(before)|)
  }

  // The events published to the subscriber's agent while the subscription was open.
  function Due<E(==)>(actions: seq<Action<E>>, q: nat): seq<E> {
    if actions == [] then []
    else
      var before, a := actions[..|actions| - 1], actions[|actions| - 1];
      Due(before, q) + if a.Publish? && IsOpen(before, a.agentId, q) then [a.event] else []
  }

  function First<E>(queue: seq<E>): seq<E> {
    if queue == [] then [] else [queue[0]]
  }

  // The events taken from the queue.
  function Received<E>(actions: seq<Action<E>>, q: nat): seq<E> {
    if actions == [] then []
    else
      var before, a := actions[..|actions| - 1], actions[|actions| - 1];
      var queues := After(before).queues;
      Received(before, q) + if a == Get(q) && q in queues then First(queues[q]) else []
  }

  ghost predicate OldestFirst(list: seq<nat>) {
    forall i, j :: 0 <= i < j < |list| ==> list[i] < list[j]
  }

  // The agent's list is what it has open, oldest first; an agent with none has no entry.
  ghost predicate ListKept<E>(actions: seq<Action<E>>, h: Hub<E>, agentId: string) {
    var list := Listeners(h.subscribers, agentId);
    && OldestFirst(list)
    && (forall q: nat :: q in list <==> IsOpen(actions, agentId, q))
    && (agentId in h.subscribers <==> list != [])
  }

  ghost predicate QueuesKept<E>(actions: seq<Action<E>>, h: Hub<E>) {
    h.next == |Opened(actions)| && forall q: nat :: q in h.queues <==> q < h.next
  }

  // ------------------------------------------------------------ small lemmas

  lemma {:induction false} PushedAll<E>(queues: map<nat, seq<E>>, list: seq<nat>, event: E, q: nat)
    requires OldestFirst(list)
    ensures PushAll(queues, list, event).Keys == queues.Keys
    ensures q in queues ==> PushAll(queues, list, event)[q] == queues[q] + if q in list then [event] else []
  {
    if list != [] {
      var n := |list| - 1;
      PushedAll(queues, list[..n], event, q);
      assert list == list[..n] + [list[n]];
    }
  }

  lemma OldestFirstCons(x: nat, rest: seq<nat>)
    ensures OldestFirst([x] + rest) <==> OldestFirst(rest) && forall p: nat :: p in rest ==> x < p
  {
    var list := [x] + rest;
    if OldestFirst(list) {
      forall i, j | 0 <= i < j < |rest| ensures rest[i] < rest[j] {
        assert list[i + 1] < list[j + 1];
      }
      forall p: nat | p in rest ensures x < p {
        var i :| 0 <= i < |rest| && rest[i] == p;
        assert list[0] < list[i + 1];
      }
    } else if OldestFirst(rest) && (forall p: nat :: p in rest ==> x < p) {
      forall i, j | 0 <= i < j < |list| ensures list[i] < list[j] {
        assert list[j] == rest[j - 1] && rest[j - 1] in rest;
      }
    }
  }

  lemma {:induction false} Removed(list: seq<nat>, q: nat)
    requires OldestFirst(list)
    ensures OldestFirst(Remove(list, q))
    ensures forall p: nat :: p in Remove(list, q) <==> p in list && p != q
  {
    hide OldestFirst;
    if list != [] {
      var x, rest := list[0], list[1..];
      assert list == [x] + rest;
      OldestFirstCons(x, rest);
      Removed(rest, q);
      OldestFirstCons(x, Remove(rest, q));
    }
  }

  // ---------------------------------------------------------------- every run

  lemma OpenNext<E>(before: seq<Action<E>>, a: Action<E>, agentId: string, q: nat)
    ensures Opened(before + [a]) == Opened(before) + if a.Subscribe? then [a.agentId] else []
    ensures After(before + [a]) == Apply(After(before), a)
    ensures IsOpen(before + [a], agentId, q) <==>
              && a != Unsubscribe(agentId, q)
              && (IsOpen(before, agentId, q)
                  || (a == Subscribe(agentId) && q == |Opened(before)| && Unsubscribe(agentId, q) !in before))
  {
    assert (before + [a])[..|before|] == before;
  }

  // No one has left a subscription that is not there yet.
  lemma {:induction false} NotLeftYet<E>(actions: seq<Action<E>>, agentId: string, q: nat)
    requires IsRun(actions) && q >= |Opened(actions)|
    ensures Unsubscribe(agentId, q) !in actions
  {
    if actions != [] {
      var before, a := actions[..|actions| - 1], actions[|actions| - 1];
      NotLeftYet(before, agentId, q);
      assert actions == before + [a];
    }
  }

  // An agent's list after one more action.
  function NextList<E>(h: Hub<E>, a: Action<E>, agentId: string): seq<nat> {
    var list := Listeners(h.subscribers, agentId);
    match a
    case Subscribe(b) => if b == agentId then list + [h.next] else list
    case Unsubscribe(b, q) => if b == agentId then Remove(list, q) else list
    case _ => list
  }

  lemma ListMoves<E>(h: Hub<E>, a: Action<E>, agentId: string)
    requires a.Unsubscribe? ==> a.agentId in h.subscribers
    requires agentId in h.subscribers <==> Listeners(h.subscribers, agentId) != []
    ensures var t := Apply(h, a).subscribers;
            Listeners(t, agentId) == NextList(h, a, agentId) && (agentId in t <==> Listeners(t, agentId) != [])
  {
  }

  lemma ListStep<E>(before: seq<Action<E>>, a: Action<E>, agentId: string)
    requires IsRun(before)
    requires a.Unsubscribe? ==>
               IsOpen(before, a.agentId, a.q) && ListKept(before, After(before), a.agentId)
    requires ListKept(before, After(before), agentId) && QueuesKept(before, After(before))
    ensures ListKept(before + [a], After(before + [a]), agentId)
  {
    hide IsRun, After, Opened, Apply;
    var h := After(before);
    var list, next := Listeners(h.subscribers, agentId), NextList(h, a, agentId);
    OpenNext(before, a, agentId, 0);
    ListMoves(h, a, agentId);
    if a.Unsubscribe? && a.agentId == agentId {
      Removed(list, a.q);
    }
    forall i | 0 <= i < |list| ensures list[i] < h.next {
      assert list[i] in list && IsOpen(before, agentId, list[i]);
    }
    forall q: nat ensures q in next <==> IsOpen(before + [a], agentId, q) {
      OpenNext(before, a, agentId, q);
      if q == h.next {
        NotLeftYet(before, agentId, q);
      }
      assert q in list <==> IsOpen(before, agentId, q);
    }
  }

  lemma NothingOpen<E>(actions: seq<Action<E>>, agentId: string)
    requires actions == []
    ensures QueuesKept(actions, After(actions)) && ListKept(actions, After(actions), agentId)
  {
  }

  lemma {:induction false} RegistryKept<E>(actions: seq<Action<E>>, agentId: string)
    requires IsRun(actions)
    ensures QueuesKept(actions, After(actions)) && ListKept(actions, After(actions), agentId)
  {
    hide QueuesKept, ListKept, After;
    if actions == [] {
      NothingOpen(actions, agentId);
    } else {
      var before, a := actions[..|actions| - 1], actions[|actions| - 1];
      assert actions == before + [a];
      RegistryKept(before, agentId);
      if a.Publish? || a.Unsubscribe? {
        RegistryKept(before, a.agentId);
      }
      ListStep(before, a, agentId);
      QueuesStep(before, a);
    }
  }

  lemma ListIsOldestFirst<E>(actions: seq<Action<E>>, agentId: string)
    requires ListKept(actions, After(actions), agentId)
    ensures OldestFirst(Listeners(After(actions).subscribers, agentId))
  {
  }

  lemma QueuesStep<E>(before: seq<Action<E>>, a: Action<E>)
    requires IsRun(before) && QueuesKept(before, After(before))
    requires a.Publish? ==> ListKept(before, After(before), a.agentId)
    ensures QueuesKept(before + [a], After(before + [a]))
  {
    hide After, Opened, IsOpen, Listeners, IsRun;
    OpenNext(before, a, "", 0);
    if a.Publish? {
      ListIsOldestFirst(before, a.agentId);
      PushedAll(After(before).queues, Listeners(After(before).subscribers, a.agentId), a.event, 0);
    }
  }

  // ----------------------------------------------------------------- delivery

  // What came out of a queue and what is still in it is what was due.
  ghost predicate Delivered<E>(actions: seq<Action<E>>, q: nat) {
    var queues := After(actions).queues;
    if q in queues then Received(actions, q) + queues[q] == Due(actions, q)
    else Received(actions, q) == [] && Due(actions, q) == []
  }

  lemma BookNext<E>(before: seq<Action<E>>, a: Action<E>, q: nat)
    ensures var queues := After(before).queues;
            && Received(before + [a], q) ==
                 Received(before, q) + (if a == Get(q) && q in queues then First(queues[q]) else [])
            && Due(before + [a], q) ==
                 Due(before, q) + (if a.Publish? && IsOpen(before, a.agentId, q) then [a.event] else [])
            && After(before + [a]) == Apply(After(before), a)
  {
    assert (before + [a])[..|before|] == before;
  }

  lemma PublishStep<E>(before: seq<Action<E>>, a: Action<E>, q: nat)
    requires a.Publish? && ListKept(before, After(before), a.agentId) && QueuesKept(before, After(before))
    requires Delivered(before, q)
    ensures Delivered(before + [a], q)
  {
    hide After, Received, Due, IsOpen, Listeners;
    ListIsOldestFirst(before, a.agentId);
    BookNext(before, a, q);
    PushedAll(After(before).queues, Listeners(After(before).subscribers, a.agentId), a.event, q);
    if q !in After(before).queues {
      NotOpenYet(before, a.agentId, q);
    }
  }

  lemma NotOpenYet<E>(actions: seq<Action<E>>, agentId: string, q: nat)
    requires QueuesKept(actions, After(actions)) && q !in After(actions).queues
    ensures !IsOpen(actions, agentId, q)
  {
  }

  lemma OtherStep<E>(before: seq<Action<E>>, a: Action<E>, q: nat)
    requires !a.Publish? && QueuesKept(before, After(before)) && (a.Get? ==> a.q in After(before).queues)
    requires Delivered(before, q)
    ensures Delivered(before + [a], q)
  {
    hide After, Received, Due, IsOpen, Listeners, Registered, Deregistered;
    BookNext(before, a, q);
    if a == Get(q) {
      var queue := After(before).queues[q];
      assert queue != [] ==> queue == First(queue) + queue[1..];
    }
  }

  /**
    In every run, each subscription has received, in order and with nothing missing,
    repeated or foreign, the events published to its agent while it was open, except
    those that still wait in its queue.
   */
  lemma {:induction false} EveryEventIsDelivered<E>(actions: seq<Action<E>>, q: nat)
    requires IsRun(actions)
    ensures Delivered(actions, q)
  {
    hide QueuesKept, ListKept, After, Delivered;
    if actions == [] {
      NothingDue(actions, q);
    } else {
      var before, a := actions[..|actions| - 1], actions[|actions| - 1];
      assert actions == before + [a];
      EveryEventIsDelivered(before, q);
      if a.Publish? {
        RegistryKept(before, a.agentId);
        PublishStep(before, a, q);
      } else {
        RegistryKept(before, "");
        QueueThere(before, a);
        OtherStep(before, a, q);
      }
    }
  }

  lemma NothingDue<E>(actions: seq<Action<E>>, q: nat)
    requires actions == []
    ensures Delivered(actions, q)
  {
  }

  lemma QueueThere<E>(before: seq<Action<E>>, a: Action<E>)
    requires QueuesKept(before, After(before)) && (a.Get? ==> a.q < |Opened(before)|)
    ensures a.Get? ==> a.q in After(before).queues
  {
  }

  /**
    Leaving a subscription touches no other: every other queue stays in its agent's list
    and keeps its contents; the agent's entry stays while another queue is in it.
   */
  lemma LeavingTouchesNoOther<E>(actions: seq<Action<E>>, agentId: string, q: nat, other: string, p: nat)
    requires IsRun(actions) && IsOpen(actions, agentId, q) && p != q
    ensures var h := After(actions);
            var t := Apply(h, Unsubscribe(agentId, q));
            && t.queues == h.queues
            && (p in Listeners(t.subscribers, other) <==> p in Listeners(h.subscribers, other))
            && q !in Listeners(t.subscribers, agentId)
            && (agentId in t.subscribers <==> exists r :: r in Listeners(h.subscribers, agentId) && r != q)
  {
    hide After, IsRun;
    var h := After(actions);
    RegistryKept(actions, agentId);
    RegistryKept(actions, other);
    Removed(Listeners(h.subscribers, agentId), q);
    var rest := Remove(Listeners(h.subscribers, agentId), q);
    if rest != [] {
      assert rest[0] in rest;
    }
  }
}
