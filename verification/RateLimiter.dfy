/**
  The sliding-window rate limiter over a Redis sorted set per agent, and the
  proof that on any run of checks it decides as the plain log of admitted calls
  would.
 */
module RateLimiter {
  import opened Options

  datatype RateLimitResult = RateLimitResult(
    allowed: bool,
    limit: int,
    remaining: int,
    reset: int,
    retryAfter: Option<int>)

  // -------------------------------------------------------------- sorted sets

  // A sorted set under a key: each member's score, and when the key expires.
  // A member is named by the unique part of its text.
  datatype Key = Key(scores: map<nat, real>, deadline: real)

  type Store = map<string, Key>

  // What a command at time `now` finds under a key.
  function Visible(s: Store, key: string, now: real): map<nat, real> {
    if key in s && now <= s[key].deadline then s[key].scores else map[]
  }

  function WithoutScores(scores: map<nat, real>, lo: real, hi: real): map<nat, real> {
    map m | m in scores && !(lo <= scores[m] <= hi) :: scores[m]
  }

  // ZREMRANGEBYSCORE key lo hi
  function Zremrangebyscore(s: Store, key: string, lo: real, hi: real, now: real): Store {
    if key in s && now <= s[key].deadline
    then s[key := Key(WithoutScores(s[key].scores, lo, hi), s[key].deadline)]
    else s - {key}
  }

  // ZADD key score member, then EXPIRE key seconds, in one transaction
  function ZaddExpire(s: Store, key: string, member: nat, score: real, seconds: int, now: real): Store {
    s[key := Key(Visible(s, key, now)[member := score], now + seconds as real)]
  }

  ghost predicate IsLeast(scores: map<nat, real>, least: real) {
    && (exists m :: m in scores && scores[m] == least)
    && (forall m :: m in scores ==> least <= scores[m])
  }

  // The least score: ZRANGE key 0 0 WITHSCORES
  function LeastScore(scores: map<nat, real>): (least: real)
    requires scores != map[]
    ensures IsLeast(scores, least)
  {
    LeastExists(scores);
    var least :| least in scores.Values && forall x :: x in scores.Values ==> least <= x;
    assert forall m :: m in scores ==> scores[m] in scores.Values;
    least
  }

  lemma LeastExists(scores: map<nat, real>)
    requires scores != map[]
    ensures exists least :: least in scores.Values && forall x :: x in scores.Values ==> least <= x
  {
    var m := LeastMember(scores);
    assert scores[m] in scores.Values;
  }

  lemma {:induction false} LeastMember(scores: map<nat, real>) returns (m: nat)
    requires scores != map[]
    ensures m in scores && forall n :: n in scores ==> scores[m] <= scores[n]
    decreases |scores|
  {
    m :| m in scores;
    var rest := scores - {m};
    if rest == map[] {
      assert forall n :: n in scores && n != m ==> n in rest;
    } else {
      assert rest.Keys == scores.Keys - {m};
      var other := LeastMember(rest);
      assert forall n :: n in scores && n != m ==> n in rest && rest[n] == scores[n];
      if scores[other] < scores[m] {
        m := other;
      }
    }
  }

  // ------------------------------------------------------------------- check

  // When a denied caller may come back, before it is rounded for the response.
  function ResetAt(scores: map<nat, real>, window: int, now: real): real {
    if scores == map[] then now + window as real else LeastScore(scores) + window as real
  }

  // Python's int(): towards zero.
  function Truncate(x: real): int {
    if x >= 0.0 then x.Floor else -((-x).Floor)
  }

  function Denied(limit: int, resetAt: real, now: real): RateLimitResult {
    var wait := Truncate(resetAt - now);
    RateLimitResult(false, limit, 0, Truncate(resetAt), Some(if wait < 1 then 1 else wait))
  }

  function Admitted(limit: int, count: int, window: int, now: real): RateLimitResult {
    var left := limit - count - 1;
    RateLimitResult(true, limit, if left < 0 then 0 else left, Truncate(now + window as real), None)
  }

  // One check, as a step of the store.
  function Checked(s: Store, window: int, key: string, limit: int, now: real, member: nat): (Store, RateLimitResult) {
    var trimmed := Zremrangebyscore(s, key, 0.0, now - window as real, now);
    var scores := Visible(trimmed, key, now);
    if |scores| >= limit then (trimmed, Denied(limit, ResetAt(scores, window, now), now))
    else (ZaddExpire(trimmed, key, member, now, window, now), Admitted(limit, |scores|, window, now))
  }

  // The Redis command at which an error comes, and whether Redis has carried it out all the same.
  datatype Failure = Trimming(applied: bool) | Counting | Oldest | Admitting(applied: bool)

  function FailOpen(limit: int, window: int, now: real): RateLimitResult {
    RateLimitResult(true, limit, limit, Truncate(now + window as real), None)
  }

  // One check in which Redis may fail: the call is let through, and what was done stays done.
  function CheckedFailing(s: Store, window: int, key: string, limit: int, now: real, member: nat,
                          failing: Option<Failure>): (Store, RateLimitResult)
  {
    var trimmed := Zremrangebyscore(s, key, 0.0, now - window as real, now);
    var full := |Visible(trimmed, key, now)| >= limit;
    var open := FailOpen(limit, window, now);
    match failing
    case Some(Trimming(applied)) => (if applied then trimmed else s, open)
    case Some(Counting) => (trimmed, open)
    case Some(Oldest) => if full then (trimmed, open) else Checked(s, window, key, limit, now, member)
    case Some(Admitting(applied)) =>
      if full then Checked(s, window, key, limit, now, member)
      else (if applied then ZaddExpire(trimmed, key, member, now, window, now) else trimmed, open)
    case None => Checked(s, window, key, limit, now, member)
  }

  // No more is visible than before, and all of the window that was.
  ghost predicate OnlyTrimmed(s: Store, t: Store, key: string, start: real, now: real) {
    && Visible(t, key, now).Keys <= Visible(s, key, now).Keys
    && forall m :: m in Visible(s, key, now) && Visible(s, key, now)[m] > start ==>
         m in Visible(t, key, now) && Visible(t, key, now)[m] == Visible(s, key, now)[m]
  }

  lemma TrimOnlyTrims(s: Store, key: string, start: real, now: real)
    ensures OnlyTrimmed(s, s, key, start, now)
    ensures OnlyTrimmed(s, Zremrangebyscore(s, key, 0.0, start, now), key, start, now)
  {
  }

  // The failing command is one that the check comes to.
  predicate Reached(failing: Option<Failure>, allowed: bool) {
    match failing
    case None => false
    case Some(Trimming(_)) => true
    case Some(Counting) => true
    case Some(Oldest) => !allowed
    case Some(Admitting(_)) => allowed
  }

  /**
    A check that comes to a failing command lets the call through, and answers as if nothing
    were counted; every other ends as without the failure. The call is recorded exactly
    when the closing transaction was carried out, and then as any admitted call is;
    otherwise it counts towards no window, and no call in the window is forgotten.
   */
  lemma FailureCountsNothing(s: Store, window: int, key: string, limit: int, now: real, member: nat,
                             failing: Option<Failure>)
    requires now >= 0.0 && window >= 0
    ensures var (t, r) := CheckedFailing(s, window, key, limit, now, member, failing);
            var checked := Checked(s, window, key, limit, now, member);
            if !Reached(failing, checked.1.allowed) then (t, r) == checked
            else
              && r.allowed && r.limit == limit && r.remaining == limit && r.retryAfter == None
              && r.reset as real <= now + window as real < (r.reset + 1) as real
              && if failing.value == Admitting(true) then t == checked.0
                 else OnlyTrimmed(s, t, key, now - window as real, now)
  {
    hide Zremrangebyscore, ZaddExpire, Visible, OnlyTrimmed;
    TrimOnlyTrims(s, key, now - window as real, now);
  }

  // Every other agent's key is as it was.
  ghost predicate SameElsewhere(s: Store, t: Store, key: string) {
    forall other :: other != key ==> (other in t <==> other in s) && (other in t ==> t[other] == s[other])
  }

  lemma CommandsStayHome(s: Store, key: string, hi: real, member: nat, seconds: int, now: real)
    ensures SameElsewhere(s, Zremrangebyscore(s, key, 0.0, hi, now), key)
    ensures SameElsewhere(s, ZaddExpire(s, key, member, now, seconds, now), key)
  {
    hide WithoutScores, Visible;
  }

  lemma OthersUntouched(s: Store, window: int, key: string, limit: int, now: real, member: nat,
                        failing: Option<Failure>)
    ensures SameElsewhere(s, CheckedFailing(s, window, key, limit, now, member, failing).0, key)
  {
    hide Zremrangebyscore, ZaddExpire, Visible, Denied, Admitted, ResetAt;
    var trimmed := Zremrangebyscore(s, key, 0.0, now - window as real, now);
    CommandsStayHome(s, key, now - window as real, member, window, now);
    CommandsStayHome(trimmed, key, now, member, window, now);
  }

  class SlidingWindowRateLimiter {
    const windowSeconds: int
    var redis: Store

    constructor (windowSeconds: int)
      ensures this.windowSeconds == windowSeconds && redis == map[]
    {
      this.windowSeconds := windowSeconds;
      redis := map[];
    }

    // `now` is the clock, `member` the fresh unique part of the new member's text.
    method Check(agentId: string, limit: int, now: real, member: nat, failing: Option<Failure>)
      returns (r: RateLimitResult)
      modifies this`redis
      ensures (redis, r) == CheckedFailing(old(redis), windowSeconds, agentId, limit, now, member, failing)
      ensures SameElsewhere(old(redis), redis, agentId)
    {
      hide Truncate, IsLeast, Visible, SameElsewhere, Zremrangebyscore, ZaddExpire;
      OthersUntouched(redis, windowSeconds, agentId, limit, now, member, failing);
      var windowStart := now - windowSeconds as real;
      if failing == Some(Trimming(false)) {
        return FailOpen(limit, windowSeconds, now);
      }
      redis := Zremrangebyscore(redis, agentId, 0.0, windowStart, now);
      if failing == Some(Trimming(true)) {
        return FailOpen(limit, windowSeconds, now);
      }
      if failing == Some(Counting) {
        return FailOpen(limit, windowSeconds, now);
      }
      var count := |Visible(redis, agentId, now)|;
      if count >= limit {
        if failing == Some(Oldest) {
          return FailOpen(limit, windowSeconds, now);
        }
        var oldest := Visible(redis, agentId, now);
        var resetAt := if oldest != map[] then LeastScore(oldest) + windowSeconds as real
                       else now + windowSeconds as real;
        var wait := Truncate(resetAt - now);
        return RateLimitResult(false, limit, 0, Truncate(resetAt), Some(if wait < 1 then 1 else wait));
      }
      if failing == Some(Admitting(false)) {
        return FailOpen(limit, windowSeconds, now);
      }
      redis := ZaddExpire(redis, agentId, member, now, windowSeconds, now);
      if failing == Some(Admitting(true)) {
        return FailOpen(limit, windowSeconds, now);
      }
      var left := limit - count - 1;
      return RateLimitResult(true, limit, if left < 0 then 0 else left, Truncate(now + windowSeconds as real), None);
    }
  }

  // -------------------------------------------------------------------- runs

  datatype Call = Call(agentId: string, now: real, limit: int)

  // The clock does not run backwards, and starts at or after its epoch.
  ghost predicate Clocked(calls: seq<Call>) {
    && (forall i :: 0 <= i < |calls| ==> calls[i].now >= 0.0)
    && (forall i, j :: 0 <= i < j < |calls| ==> calls[i].now <= calls[j].now)
  }

  // The store after the first n calls; call i adds member i.
  function StoreAfter(window: int, calls: seq<Call>, n: nat): Store
    requires n <= |calls|
  {
    if n == 0 then map[]
    else
      var c := calls[n - 1];
      Checked(StoreAfter(window, calls, n - 1), window, c.agentId, c.limit, c.now, n - 1).0
  }

  function Answer(window: int, calls: seq<Call>, i: nat): RateLimitResult
    requires i < |calls|
  {
    var c := calls[i];
    Checked(StoreAfter(window, calls, i), window, c.agentId, c.limit, c.now, i).1
  }

  // The reference: a call is admitted when fewer than its limit of that agent's
  // admitted calls lie in the window (now - window, now].
  predicate LogAdmits(window: int, calls: seq<Call>, i: nat)
    requires i < |calls|
    decreases i, 1
  {
    |LogWindow(window, calls, i, calls[i].agentId, calls[i].now)| < calls[i].limit
  }

  // The agent's admitted calls among the first n that are still in the window at `now`.
  function LogWindow(window: int, calls: seq<Call>, n: nat, agentId: string, now: real): set<nat>
    requires n <= |calls|
    decreases n, 0
  {
    set j: nat | 0 <= j < n && calls[j].agentId == agentId &&
                 now - window as real < calls[j].now && LogAdmits(window, calls, j)
  }

  // --------------------------------------------------------- limiter against log

  function KeyOf(s: Store, agentId: string): Key {
    if agentId in s then s[agentId] else Key(map[], 0.0)
  }

  // What the check sees after trimming.
  function Trimmed(s: Store, window: int, agentId: string, now: real): map<nat, real> {
    WithoutScores(Visible(s, agentId, now), 0.0, now - window as real)
  }

  // A check touches the agent's own key only, and this is what it leaves there.
  lemma CheckedKey(s: Store, window: int, agentId: string, limit: int, now: real, member: nat, other: string)
    ensures var (s', r) := Checked(s, window, agentId, limit, now, member);
            var t := Trimmed(s, window, agentId, now);
            && (r.allowed <==> |t| < limit)
            && (other != agentId ==> KeyOf(s', other) == KeyOf(s, other))
            && KeyOf(s', agentId).scores == (if r.allowed then t[member := now] else t)
            && (r.allowed ==> KeyOf(s', agentId).deadline == now + window as real)
            && (!r.allowed && agentId in s' ==> KeyOf(s', agentId).deadline == KeyOf(s, agentId).deadline)
  {
    var trimmed := Zremrangebyscore(s, agentId, 0.0, now - window as real, now);
    assert Visible(trimmed, agentId, now) == Trimmed(s, window, agentId, now);
  }

  // Call j was admitted and belongs to the agent.
  ghost predicate Logged(window: int, calls: seq<Call>, n: nat, agentId: string, j: nat)
    requires n <= |calls|
  {
    j < n && calls[j].agentId == agentId && LogAdmits(window, calls, j)
  }

  // The key holds the log: nothing but admitted calls with their times, none of
  // which outlives the key's deadline; and what is missing has left the window.
  ghost predicate Holds(window: int, calls: seq<Call>, n: nat, k: Key, agentId: string)
    requires n <= |calls|
  {
    && (forall m :: m in k.scores ==>
          && Logged(window, calls, n, agentId, m)
          && k.scores[m] == calls[m].now && k.scores[m] + window as real <= k.deadline)
    && Forgotten(window, calls, n, k, agentId)
  }

  // An admitted call that is not under the key is out of the window.
  ghost predicate Forgotten(window: int, calls: seq<Call>, n: nat, k: Key, agentId: string)
    requires n <= |calls|
  {
    forall j: nat :: Logged(window, calls, n, agentId, j) && j !in k.scores ==>
        calls[j].now + window as real <= calls[n - 1].now
  }

  lemma WindowMember(window: int, calls: seq<Call>, n: nat, agentId: string, now: real, j: nat)
    requires n <= |calls|
    ensures j in LogWindow(window, calls, n, agentId, now) <==>
            Logged(window, calls, n, agentId, j) && now - window as real < calls[j].now
  {
  }

  lemma TrimmedIsWindow(window: int, calls: seq<Call>, n: nat, s: Store, agentId: string, now: real)
    requires Clocked(calls) && n <= |calls| && Holds(window, calls, n, KeyOf(s, agentId), agentId)
    requires n > 0 ==> calls[n - 1].now <= now
    ensures Trimmed(s, window, agentId, now).Keys == LogWindow(window, calls, n, agentId, now)
    ensures forall m :: m in Trimmed(s, window, agentId, now) ==> Trimmed(s, window, agentId, now)[m] == calls[m].now
    ensures |Trimmed(s, window, agentId, now)| == |LogWindow(window, calls, n, agentId, now)|
  {
    hide LogAdmits, LogWindow;
    var t := Trimmed(s, window, agentId, now);
    forall j: nat ensures j in t <==> j in LogWindow(window, calls, n, agentId, now) {
      WindowMember(window, calls, n, agentId, now, j);
    }
    assert |t| == |t.Keys|;
    assert t.Keys == LogWindow(window, calls, n, agentId, now);
  }

  lemma AdmitsByWindow(window: int, calls: seq<Call>, n: nat)
    requires n < |calls|
    ensures LogAdmits(window, calls, n) <==>
              |LogWindow(window, calls, n, calls[n].agentId, calls[n].now)| < calls[n].limit
  {
  }

  // One check decides as the log does and keeps the store in step with it.
  lemma CheckRefines(window: int, calls: seq<Call>, n: nat, s: Store, agentId: string)
    requires Clocked(calls) && n < |calls|
    requires Holds(window, calls, n, KeyOf(s, agentId), agentId)
    requires Holds(window, calls, n, KeyOf(s, calls[n].agentId), calls[n].agentId)
    ensures var c := calls[n]; var (s', r) := Checked(s, window, c.agentId, c.limit, c.now, n);
            && (r.allowed <==> LogAdmits(window, calls, n))
            && Holds(window, calls, n + 1, KeyOf(s', agentId), agentId)
  {
    hide Checked, LogWindow, LogAdmits;
    var c := calls[n];
    var (s', r) := Checked(s, window, c.agentId, c.limit, c.now, n);
    assert n > 0 ==> calls[n - 1].now <= c.now;
    CheckedKey(s, window, c.agentId, c.limit, c.now, n, agentId);
    TrimmedIsWindow(window, calls, n, s, c.agentId, c.now);
    AdmitsByWindow(window, calls, n);
    if agentId == c.agentId {
      StepHolds(window, calls, n, KeyOf(s, agentId), Trimmed(s, window, agentId, c.now), KeyOf(s', agentId));
    } else {
      OtherHolds(window, calls, n, KeyOf(s, agentId), agentId);
    }
  }

  lemma StepHolds(window: int, calls: seq<Call>, n: nat, k: Key, t: map<nat, real>, k': Key)
    requires Clocked(calls) && n < |calls| && Holds(window, calls, n, k, calls[n].agentId)
    requires t.Keys == LogWindow(window, calls, n, calls[n].agentId, calls[n].now)
    requires forall m :: m in t ==> m in k.scores && t[m] == calls[m].now
    requires k'.scores == if LogAdmits(window, calls, n) then t[n := calls[n].now] else t
    requires LogAdmits(window, calls, n) ==> k'.deadline == calls[n].now + window as real
    requires !LogAdmits(window, calls, n) ==> k'.scores == map[] || k'.deadline == k.deadline
    ensures Holds(window, calls, n + 1, k', calls[n].agentId)
  {
    hide LogAdmits, LogWindow, Forgotten;
    var c := calls[n];
    StepForgets(window, calls, n, t, k');
    forall m | m in k'.scores
      ensures k'.scores[m] + window as real <= k'.deadline && Logged(window, calls, n + 1, c.agentId, m)
    {
      WindowMember(window, calls, n, c.agentId, c.now, m);
    }
  }

  lemma StepForgets(window: int, calls: seq<Call>, n: nat, t: map<nat, real>, k': Key)
    requires Clocked(calls) && n < |calls|
    requires t.Keys == LogWindow(window, calls, n, calls[n].agentId, calls[n].now)
    requires forall m :: m in t || (LogAdmits(window, calls, n) && m == n) ==> m in k'.scores
    ensures Forgotten(window, calls, n + 1, k', calls[n].agentId)
  {
    hide LogAdmits, LogWindow;
    var c := calls[n];
    forall j: nat | Logged(window, calls, n + 1, c.agentId, j) && j !in k'.scores
      ensures calls[j].now + window as real <= c.now
    {
      WindowMember(window, calls, n, c.agentId, c.now, j);
      assert j != n ==> Logged(window, calls, n, c.agentId, j);
    }
  }

  lemma OtherHolds(window: int, calls: seq<Call>, n: nat, k: Key, agentId: string)
    requires Clocked(calls) && n < |calls| && Holds(window, calls, n, k, agentId) && calls[n].agentId != agentId
    ensures Holds(window, calls, n + 1, k, agentId)
  {
    hide LogAdmits;
    assert n > 0 ==> calls[n - 1].now <= calls[n].now;
    assert forall j: nat :: Logged(window, calls, n + 1, agentId, j) <==> Logged(window, calls, n, agentId, j);
  }

  lemma {:induction false} StoreHolds(window: int, calls: seq<Call>, n: nat, agentId: string)
    requires Clocked(calls) && n <= |calls|
    ensures Holds(window, calls, n, KeyOf(StoreAfter(window, calls, n), agentId), agentId)
  {
    hide LogAdmits, Checked;
    if n > 0 {
      StoreHolds(window, calls, n - 1, agentId);
      StoreHolds(window, calls, n - 1, calls[n - 1].agentId);
      CheckRefines(window, calls, n - 1, StoreAfter(window, calls, n - 1), agentId);
    }
  }

  /** On every run the limiter admits exactly the calls the plain log of admitted calls admits. */
  lemma LimiterRefinesLog(window: int, calls: seq<Call>, i: nat)
    requires Clocked(calls) && i < |calls|
    ensures Answer(window, calls, i).allowed <==> LogAdmits(window, calls, i)
  {
    hide LogAdmits, Checked;
    StoreHolds(window, calls, i, calls[i].agentId);
    CheckRefines(window, calls, i, StoreAfter(window, calls, i), calls[i].agentId);
  }

  /** EXPIRE on the whole key never hides an admitted call that is still in the window. */
  lemma ExpiryLosesNothing(window: int, calls: seq<Call>, n: nat, agentId: string, now: real)
    requires Clocked(calls) && n <= |calls| && (n > 0 ==> calls[n - 1].now <= now)
    ensures LogWindow(window, calls, n, agentId, now) <= Visible(StoreAfter(window, calls, n), agentId, now).Keys
  {
    hide LogAdmits, LogWindow;
    StoreHolds(window, calls, n, agentId);
    TrimmedIsWindow(window, calls, n, StoreAfter(window, calls, n), agentId, now);
  }
}
