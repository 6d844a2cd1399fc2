/**
  Callbacks for one approval whose handlers overlap: each reads the record and
  checks it, and later writes its ruling, with other callbacks in between. What
  the atomic handlers promise then holds up to the number that overlap.
 */
module ApprovalRace {
  import opened Options
  import opened Approvals

  // `inFlight` holds what each handler between its read and its write has read;
  // `taken` the rulings that took effect, an approving one running the executor.
  datatype Race = Race(kv: Records, pending: int, inFlight: map<nat, Approval>, taken: seq<bool>)

  datatype Action =
    | Read(w: nat, readAt: real, now: real)
    | Write(w: nat, approve: bool, decidedBy: string, decidedAt: real, writtenAt: real)

  function Start(kv: Records, pending: int): Race {
    Race(kv, pending, map[], [])
  }

  // At most k handlers at once.
  predicate Enabled(s: Race, id: string, k: nat, a: Action) {
    match a
    case Read(w, _, _) => w !in s.inFlight && |s.inFlight| < k
    case Write(w, _, _, _, _) => w in s.inFlight
  }

  // A handler whose check fails answers and is gone.
  function Apply(s: Race, id: string, a: Action): Race {
    match a
    case Read(w, readAt, now) =>
      if DecisionOutcome(s.kv, id, readAt, now) == Decided
      then s.(inFlight := s.inFlight[w := s.kv[id].approval])
      else s
    case Write(w, approve, decidedBy, decidedAt, writtenAt) =>
      if w !in s.inFlight then s
      else
        var a := Settle(s.inFlight[w], approve, decidedBy, decidedAt);
        Race(s.kv[id := if id in s.kv then KeepTtl(s.kv[id], a, writtenAt) else Entry(a, None)],
             s.pending - 1, s.inFlight - {w}, s.taken + [approve])
  }

  function After(start: Race, id: string, actions: seq<Action>): Race {
    if actions == [] then start
    else Apply(After(start, id, actions[..|actions| - 1]), id, actions[|actions| - 1])
  }

  ghost predicate IsRun(start: Race, id: string, k: nat, actions: seq<Action>) {
    actions == [] ||
    var before := actions[..|actions| - 1];
    IsRun(start, id, k, before) && Enabled(After(start, id, before), id, k, actions[|actions| - 1])
  }

  // Once a ruling is written the record is never pending again, and every handler still
  // in flight read it before that.
  predicate Kept(s: Race, id: string, k: nat) {
    && |s.inFlight| <= k
    && (s.taken != [] ==> id in s.kv && s.kv[id].approval.status != Pending && |s.taken| + |s.inFlight| <= k)
  }

  lemma Fewer(m: map<nat, Approval>, w: nat)
    requires w in m
    ensures |m - {w}| == |m| - 1
  {
    assert (m - {w}).Keys == m.Keys - {w};
    assert |m.Keys| == |m| && |(m - {w}).Keys| == |m - {w}|;
  }

  lemma StepKeeps(s: Race, id: string, k: nat, a: Action)
    requires Kept(s, id, k) && Enabled(s, id, k, a)
    ensures Kept(Apply(s, id, a), id, k)
  {
    if a.Write? {
      Fewer(s.inFlight, a.w);
    }
  }

  lemma {:induction false} RunKeeps(kv: Records, pending: int, id: string, k: nat, actions: seq<Action>)
    requires IsRun(Start(kv, pending), id, k, actions)
    ensures var s := After(Start(kv, pending), id, actions); Kept(s, id, k) && s.pending + |s.taken| == pending
  {
    hide Apply, Kept, Enabled;
    if actions == [] {
      StartKept(kv, pending, id, k);
    } else {
      var before, a := actions[..|actions| - 1], actions[|actions| - 1];
      RunKeeps(kv, pending, id, k, before);
      StepKeeps(After(Start(kv, pending), id, before), id, k, a);
      GaugeStep(After(Start(kv, pending), id, before), id, a);
    }
  }

  lemma StartKept(kv: Records, pending: int, id: string, k: nat)
    ensures Kept(Start(kv, pending), id, k)
  {
  }

  lemma GaugeStep(s: Race, id: string, a: Action)
    ensures Apply(s, id, a).pending + |Apply(s, id, a).taken| == s.pending + |s.taken|
  {
  }

  /**
    With at most k overlapping callbacks, at most k rulings take effect, and as many
    times the executor runs at most; the gauge goes down once for each. With k = 1 the
    approval is decided at most once.
   */
  lemma RulingsAreBounded(kv: Records, pending: int, id: string, k: nat, actions: seq<Action>)
    requires IsRun(Start(kv, pending), id, k, actions)
    ensures var s := After(Start(kv, pending), id, actions);
            |s.taken| <= k && s.pending == pending - |s.taken|
  {
    hide After, IsRun;
    RunKeeps(kv, pending, id, k, actions);
  }

  // k handlers read the record.
  function Reads(k: nat, now: real): seq<Action> {
    if k == 0 then [] else Reads(k - 1, now) + [Read(k - 1, now, now)]
  }

  // k handlers write their approval.
  function Writes(k: nat, now: real): seq<Action> {
    if k == 0 then [] else Writes(k - 1, now) + [Write(k - 1, true, "", now, now)]
  }

  lemma {:induction false} AllRead(start: Race, id: string, k: nat, n: nat, now: real)
    requires n <= k && start.inFlight == map[] && DecisionOutcome(start.kv, id, now, now) == Decided
    ensures IsRun(start, id, k, Reads(n, now))
    ensures var s := After(start, id, Reads(n, now));
            s == start.(inFlight := s.inFlight) && (forall w: nat :: w in s.inFlight <==> w < n) && |s.inFlight| == n
  {
    hide DecisionOutcome, IsRun, After;
    if n == 0 {
      NoneRead(start, id, k);
    } else {
      assert Reads(n, now)[..|Reads(n, now)| - 1] == Reads(n - 1, now);
      AllRead(start, id, k, n - 1, now);
      NextRead(start, id, k, Reads(n, now));
    }
  }

  lemma NoneRead(start: Race, id: string, k: nat)
    ensures IsRun(start, id, k, []) && After(start, id, []) == start
  {
  }

  lemma NextRead(start: Race, id: string, k: nat, actions: seq<Action>)
    requires actions != []
    requires var before, a := actions[..|actions| - 1], actions[|actions| - 1];
             var s := After(start, id, before);
             && IsRun(start, id, k, before) && a.Read? && a.w !in s.inFlight && |s.inFlight| < k
             && DecisionOutcome(s.kv, id, a.readAt, a.now) == Decided
    ensures var before, a := After(start, id, actions[..|actions| - 1]), actions[|actions| - 1];
            && id in before.kv && IsRun(start, id, k, actions)
            && After(start, id, actions) == before.(inFlight := before.inFlight[a.w := before.kv[id].approval])
  {
  }

  lemma {:induction false} AllWrite(start: Race, id: string, k: nat, n: nat, now: real)
    requires n <= k && start.inFlight == map[] && start.taken == []
    requires DecisionOutcome(start.kv, id, now, now) == Decided
    ensures var actions := Reads(k, now) + Writes(n, now);
            var s := After(start, id, actions);
            && IsRun(start, id, k, actions)
            && (forall w: nat :: w in s.inFlight <==> n <= w < k)
            && |s.taken| == n && forall i :: 0 <= i < n ==> s.taken[i]
  {
    hide DecisionOutcome, IsRun, Enabled, Apply;
    var actions := Reads(k, now) + Writes(n, now);
    if n == 0 {
      assert actions == Reads(k, now);
      AllRead(start, id, k, k, now);
    } else {
      assert actions[..|actions| - 1] == Reads(k, now) + Writes(n - 1, now);
      assert actions[|actions| - 1] == Write(n - 1, true, "", now, now);
      AllWrite(start, id, k, n - 1, now);
      NextWrite(start, id, k, actions);
    }
  }

  lemma NextWrite(start: Race, id: string, k: nat, actions: seq<Action>)
    requires actions != []
    requires var before, a := actions[..|actions| - 1], actions[|actions| - 1];
             IsRun(start, id, k, before) && a.Write? && a.approve && a.w in After(start, id, before).inFlight
    ensures var before, a := After(start, id, actions[..|actions| - 1]), actions[|actions| - 1];
            var s := After(start, id, actions);
            && IsRun(start, id, k, actions)
            && s.inFlight == before.inFlight - {a.w} && s.taken == before.taken + [true]
  {
  }

  /** The bound is reached: k callbacks that all read a pending record before any writes run its executor k times. */
  lemma OverlapReachesBound(kv: Records, pending: int, id: string, k: nat, now: real)
    requires DecisionOutcome(kv, id, now, now) == Decided
    ensures var actions := Reads(k, now) + Writes(k, now);
            && IsRun(Start(kv, pending), id, k, actions)
            && var s := After(Start(kv, pending), id, actions);
               |s.taken| == k && forall i :: 0 <= i < k ==> s.taken[i]
  {
    hide DecisionOutcome, After, IsRun;
    AllWrite(Start(kv, pending), id, k, k, now);
  }

  ghost predicate OneRulingAtMost(start: Race, id: string, actions: seq<Action>) {
    |After(start, id, actions).taken| <= 1
  }

  /**
    From a record that can be decided, at most one ruling takes effect on every run exactly when no two
    callbacks overlap.
   */
  lemma DecidedOnceIff(kv: Records, pending: int, id: string, k: nat, now: real)
    requires DecisionOutcome(kv, id, now, now) == Decided
    ensures (forall actions {:trigger OneRulingAtMost(Start(kv, pending), id, actions)} ::
               IsRun(Start(kv, pending), id, k, actions) ==> OneRulingAtMost(Start(kv, pending), id, actions))
       <==> k <= 1
  {
    hide IsRun, After, DecisionOutcome;
    if k <= 1 {
      forall actions | IsRun(Start(kv, pending), id, k, actions)
        ensures OneRulingAtMost(Start(kv, pending), id, actions)
      {
        RulingsAreBounded(kv, pending, id, k, actions);
      }
    } else {
      OverlapReachesBound(kv, pending, id, k, now);
      assert !OneRulingAtMost(Start(kv, pending), id, Reads(k, now) + Writes(k, now));
    }
  }

  // Two callbacks overlap; the first approves, the second denies.
  function ApproveThenDeny(now: real): seq<Action> {
    Reads(2, now) + [Write(0, true, "", now, now), Write(1, false, "", now, now)]
  }

  /** Then both take effect: the executor has run, and the record says that it was denied. */
  lemma ApprovedAndDenied(kv: Records, pending: int, id: string, now: real)
    requires DecisionOutcome(kv, id, now, now) == Decided
    ensures var actions := ApproveThenDeny(now);
            var s := After(Start(kv, pending), id, actions);
            && IsRun(Start(kv, pending), id, 2, actions)
            && s.taken == [true, false]
            && id in s.kv && s.kv[id].approval.status == Denied
  {
    hide IsRun, After, DecisionOutcome, Reads;
    var start := Start(kv, pending);
    var a := Reads(2, now);
    AllRead(start, id, 2, 2, now);
    var approve, deny := Write(0, true, "", now, now), Write(1, false, "", now, now);
    Next(start, id, 2, a, approve);
    Next(start, id, 2, a + [approve], deny);
    assert a + [approve] + [deny] == ApproveThenDeny(now);
  }

  lemma Next(start: Race, id: string, k: nat, before: seq<Action>, a: Action)
    requires IsRun(start, id, k, before) && Enabled(After(start, id, before), id, k, a)
    ensures IsRun(start, id, k, before + [a])
    ensures After(start, id, before + [a]) == Apply(After(start, id, before), id, a)
  {
    assert (before + [a])[..|before|] == before;
  }
}
