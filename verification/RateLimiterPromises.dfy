/**
  What the limiter's answers promise a caller whose limit does not change: the
  limit is never exceeded in any window, a denial's reset time is exact, and an
  admission's remaining count is exact.
 */
module RateLimiterPromises {
  import opened Options
  import opened RateLimiter

  ghost predicate FixedLimit(calls: seq<Call>, agentId: string, limit: int) {
    forall i :: 0 <= i < |calls| && calls[i].agentId == agentId ==> calls[i].limit == limit
  }

  lemma SubsetSize(a: set<nat>, b: set<nat>)
    requires a <= b
    ensures |a| <= |b|
  {
    assert b == a + (b - a);
  }

  lemma {:induction false} LastOf(s: set<nat>) returns (m: nat)
    requires s != {}
    ensures m in s && forall n :: n in s ==> n <= m
    decreases |s|
  {
    m :| m in s;
    var rest := s - {m};
    if rest == {} {
      assert forall n :: n in s && n != m ==> n in rest;
    } else {
      var other := LastOf(rest);
      assert forall n :: n in s && n != m ==> n in rest;
      if other > m {
        m := other;
      }
    }
  }

  // The agent's admitted calls in the window (t - window, t].
  ghost function AdmittedIn(window: int, calls: seq<Call>, agentId: string, t: real): set<nat> {
    set j: nat | 0 <= j < |calls| && Logged(window, calls, |calls|, agentId, j) &&
                 t - window as real < calls[j].now <= t
  }

  /** No window of the given length, wherever it ends, holds more admitted calls than the limit. */
  lemma LimitNeverExceeded(window: int, calls: seq<Call>, agentId: string, limit: nat, t: real)
    requires Clocked(calls) && FixedLimit(calls, agentId, limit)
    ensures |AdmittedIn(window, calls, agentId, t)| <= limit
  {
    hide LogAdmits, LogWindow;
    var s := AdmittedIn(window, calls, agentId, t);
    if s != {} {
      var m := LastOf(s);
      var before := LogWindow(window, calls, m, agentId, calls[m].now);
      AdmitsByWindow(window, calls, m);
      forall j | j in s ensures j in before + {m} {
        WindowMember(window, calls, m, agentId, calls[m].now, j);
      }
      SubsetSize(s, before + {m});
    }
  }

  // ------------------------------------------------------------------- denial

  // The moment a denied caller is told to wait for, before rounding.
  function ResetTime(window: int, calls: seq<Call>, i: nat): real
    requires i < |calls|
  {
    var c := calls[i];
    ResetAt(Trimmed(StoreAfter(window, calls, i), window, c.agentId, c.now), window, c.now)
  }

  lemma AnswerToDenied(window: int, calls: seq<Call>, i: nat)
    requires Clocked(calls) && i < |calls| && !LogAdmits(window, calls, i)
    ensures Answer(window, calls, i) == Denied(calls[i].limit, ResetTime(window, calls, i), calls[i].now)
  {
    hide LogAdmits;
    var c := calls[i];
    var s := StoreAfter(window, calls, i);
    LimiterRefinesLog(window, calls, i);
    var trimmed := Zremrangebyscore(s, c.agentId, 0.0, c.now - window as real, c.now);
    assert Visible(trimmed, c.agentId, c.now) == Trimmed(s, window, c.agentId, c.now);
  }

  // A denied call sees a full window, and its reset time is when the oldest call in it leaves.
  lemma DeniedWindow(window: int, calls: seq<Call>, limit: int, i: nat) returns (oldest: nat)
    requires Clocked(calls) && i < |calls| && limit >= 1 && FixedLimit(calls, calls[i].agentId, limit)
    requires !LogAdmits(window, calls, i)
    ensures var w := LogWindow(window, calls, i, calls[i].agentId, calls[i].now);
            && oldest in w && |w| == limit
            && (forall m :: m in w ==> calls[oldest].now <= calls[m].now)
            && ResetTime(window, calls, i) == calls[oldest].now + window as real
  {
    hide LogAdmits, LogWindow;
    var c := calls[i];
    var w := LogWindow(window, calls, i, c.agentId, c.now);
    var s := StoreAfter(window, calls, i);
    AdmitsByWindow(window, calls, i);
    StoreHolds(window, calls, i, c.agentId);
    TrimmedIsWindow(window, calls, i, s, c.agentId, c.now);
    forall j | j in w ensures j in AdmittedIn(window, calls, c.agentId, c.now) {
      WindowMember(window, calls, i, c.agentId, c.now, j);
    }
    SubsetSize(w, AdmittedIn(window, calls, c.agentId, c.now));
    LimitNeverExceeded(window, calls, c.agentId, limit, c.now);
    var scores := Trimmed(s, window, c.agentId, c.now);
    assert scores != map[];
    assert IsLeast(scores, LeastScore(scores));
    oldest :| oldest in scores && scores[oldest] == LeastScore(scores);
  }

  // Before the reset time every call is denied.
  lemma DeniedBeforeReset(window: int, calls: seq<Call>, limit: int, i: nat, j: nat)
    requires Clocked(calls) && i < j < |calls| && limit >= 1 && FixedLimit(calls, calls[i].agentId, limit)
    requires calls[j].agentId == calls[i].agentId && !LogAdmits(window, calls, i)
    requires calls[j].now < ResetTime(window, calls, i)
    ensures !LogAdmits(window, calls, j)
  {
    hide LogAdmits, LogWindow, ResetTime;
    var a := calls[i].agentId;
    var oldest := DeniedWindow(window, calls, limit, i);
    var wi := LogWindow(window, calls, i, a, calls[i].now);
    var wj := LogWindow(window, calls, j, a, calls[j].now);
    forall m | m in wi ensures m in wj {
      WindowMember(window, calls, i, a, calls[i].now, m);
      WindowMember(window, calls, j, a, calls[j].now, m);
    }
    SubsetSize(wi, wj);
    AdmitsByWindow(window, calls, j);
  }

  // The first call at or after the reset time is admitted.
  lemma AdmittedAtReset(window: int, calls: seq<Call>, limit: int, i: nat, j: nat)
    requires Clocked(calls) && i < j < |calls| && limit >= 1 && FixedLimit(calls, calls[i].agentId, limit)
    requires calls[j].agentId == calls[i].agentId && !LogAdmits(window, calls, i)
    requires calls[j].now >= ResetTime(window, calls, i)
    requires forall l :: i < l < j && calls[l].agentId == calls[i].agentId ==>
               calls[l].now < ResetTime(window, calls, i)
    ensures LogAdmits(window, calls, j)
  {
    hide LogAdmits, LogWindow, ResetTime;
    var a := calls[i].agentId;
    var oldest := DeniedWindow(window, calls, limit, i);
    var wi := LogWindow(window, calls, i, a, calls[i].now);
    var wj := LogWindow(window, calls, j, a, calls[j].now);
    forall m | m in wj ensures m in wi - {oldest} {
      WindowMember(window, calls, j, a, calls[j].now, m);
      WindowMember(window, calls, i, a, calls[i].now, m);
      if i < m {
        DeniedBeforeReset(window, calls, limit, i, m);
      }
    }
    SubsetSize(wj, wi - {oldest});
    AdmitsByWindow(window, calls, j);
  }

  /** A denied caller is told a reset time within one window of now; the rounded header and
      Retry-After are less than a second early, and Retry-After, unless it is the least of one
      second, is not late. */
  lemma DenialAnswer(window: int, calls: seq<Call>, limit: int, i: nat)
    requires Clocked(calls) && i < |calls| && limit >= 1 && FixedLimit(calls, calls[i].agentId, limit)
    ensures var r := Answer(window, calls, i); var now, at := calls[i].now, ResetTime(window, calls, i);
            !r.allowed ==>
              && now < at <= now + window as real
              && r.reset as real <= at < (r.reset + 1) as real
              && r.remaining == 0 && r.limit == limit
              && r.retryAfter.Some? && r.retryAfter.value >= 1 && now + r.retryAfter.value as real > at - 1.0
              && (r.retryAfter.value == 1 || now + r.retryAfter.value as real <= at)
  {
    hide LogAdmits, LogWindow, ResetTime, Answer, Checked;
    LimiterRefinesLog(window, calls, i);
    if !LogAdmits(window, calls, i) {
      AnswerToDenied(window, calls, i);
      var oldest := DeniedWindow(window, calls, limit, i);
      WindowMember(window, calls, i, calls[i].agentId, calls[i].now, oldest);
    }
  }

  /** The reset time is exact: every call before it is denied and the first one at or after it is admitted. */
  lemma DenialIsExact(window: int, calls: seq<Call>, limit: int, i: nat, j: nat)
    requires Clocked(calls) && i < j < |calls| && limit >= 1 && FixedLimit(calls, calls[i].agentId, limit)
    requires calls[j].agentId == calls[i].agentId
    requires forall l :: i < l < j && calls[l].agentId == calls[i].agentId ==>
               calls[l].now < ResetTime(window, calls, i)
    ensures !Answer(window, calls, i).allowed ==>
              (Answer(window, calls, j).allowed <==> calls[j].now >= ResetTime(window, calls, i))
  {
    hide LogAdmits, LogWindow, ResetTime, Answer, Checked;
    LimiterRefinesLog(window, calls, i);
    LimiterRefinesLog(window, calls, j);
    if !LogAdmits(window, calls, i) {
      if calls[j].now < ResetTime(window, calls, i) {
        DeniedBeforeReset(window, calls, limit, i, j);
      } else {
        AdmittedAtReset(window, calls, limit, i, j);
      }
    }
  }

  /** Under a limit that lets no one through, every call is told to come back a whole window later. */
  lemma ClosedAnswer(window: int, calls: seq<Call>, limit: int, i: nat)
    requires Clocked(calls) && i < |calls| && limit <= 0 && FixedLimit(calls, calls[i].agentId, limit) && window >= 0
    ensures var r := Answer(window, calls, i); var end := calls[i].now + window as real;
            && !r.allowed && r.limit == limit && r.remaining == 0
            && r.reset as real <= end < (r.reset + 1) as real
            && r.retryAfter == Some(if window < 1 then 1 else window)
  {
    hide LogWindow;
    var a := calls[i].agentId;
    var s := StoreAfter(window, calls, i);
    LimiterRefinesLog(window, calls, i);
    StoreHolds(window, calls, i, a);
    AnswerToDenied(window, calls, i);
    assert forall m: nat :: !Logged(window, calls, i, a, m);
    assert Trimmed(s, window, a, calls[i].now) == map[];
  }

  /** A denied caller that waits for Retry-After and a second more, and comes back first, is admitted. */
  lemma WaitingPays(window: int, calls: seq<Call>, limit: int, i: nat, j: nat)
    requires Clocked(calls) && i < j < |calls| && limit >= 1 && FixedLimit(calls, calls[i].agentId, limit)
    requires calls[j].agentId == calls[i].agentId
    requires forall l :: i < l < j ==> calls[l].agentId != calls[i].agentId
    requires var r := Answer(window, calls, i);
             && !r.allowed && r.retryAfter.Some?
             && calls[j].now >= calls[i].now + r.retryAfter.value as real + 1.0
    ensures Answer(window, calls, j).allowed
  {
    hide ResetTime, Answer;
    DenialAnswer(window, calls, limit, i);
    DenialIsExact(window, calls, limit, i, j);
  }

  // ---------------------------------------------------------------- admission

  ghost function CallsBetween(calls: seq<Call>, agentId: string, i: nat, j: nat): set<nat>
    requires j <= |calls|
  {
    set l: nat | i < l < j && calls[l].agentId == agentId
  }

  ghost function AdmittedBetween(window: int, calls: seq<Call>, agentId: string, i: nat, j: nat): set<nat>
    requires j <= |calls|
  {
    set l: nat | i < l < j && Logged(window, calls, |calls|, agentId, l)
  }

  /** An admitted caller is told its limit, and when a window from now ends, less than a second early. */
  lemma AdmissionAnswer(window: int, calls: seq<Call>, i: nat)
    requires Clocked(calls) && i < |calls| && window >= 0
    ensures var r := Answer(window, calls, i); var end := calls[i].now + window as real;
            r.allowed ==>
              && r.limit == calls[i].limit && 0 <= r.remaining < r.limit && r.retryAfter.None?
              && r.reset as real <= end < (r.reset + 1) as real
  {
    hide ResetAt, LeastScore, WithoutScores, Zremrangebyscore, ZaddExpire, Visible;
  }

  lemma AnswerToAdmitted(window: int, calls: seq<Call>, i: nat)
    requires Clocked(calls) && i < |calls| && LogAdmits(window, calls, i)
    ensures Answer(window, calls, i).remaining ==
            calls[i].limit - |LogWindow(window, calls, i, calls[i].agentId, calls[i].now)| - 1
  {
    hide LogAdmits, LogWindow;
    var c := calls[i];
    var s := StoreAfter(window, calls, i);
    AdmitsByWindow(window, calls, i);
    LimiterRefinesLog(window, calls, i);
    StoreHolds(window, calls, i, c.agentId);
    TrimmedIsWindow(window, calls, i, s, c.agentId, c.now);
    var trimmed := Zremrangebyscore(s, c.agentId, 0.0, c.now - window as real, c.now);
    assert Visible(trimmed, c.agentId, c.now) == Trimmed(s, window, c.agentId, c.now);
  }

  // At the same instant a later call's window is the earlier one's, that call, and the admitted ones between.
  lemma WindowGrows(window: int, calls: seq<Call>, i: nat, j: nat)
    requires Clocked(calls) && i < j < |calls| && window > 0 && calls[i].now == calls[j].now
    requires LogAdmits(window, calls, i)
    ensures var a, now := calls[i].agentId, calls[i].now;
            |LogWindow(window, calls, j, a, now)| ==
            |LogWindow(window, calls, i, a, now)| + 1 + |AdmittedBetween(window, calls, a, i, j)|
  {
    hide LogAdmits, LogWindow;
    var a, now := calls[i].agentId, calls[i].now;
    var wi, wj := LogWindow(window, calls, i, a, now), LogWindow(window, calls, j, a, now);
    var between := AdmittedBetween(window, calls, a, i, j);
    forall m: nat ensures m in wj <==> m in wi + {i} + between {
      WindowMember(window, calls, i, a, now, m);
      WindowMember(window, calls, j, a, now, m);
    }
    forall m: nat | m in wi ensures m < i {
      WindowMember(window, calls, i, a, now, m);
    }
    assert wj == wi + {i} + between;
  }

  lemma {:induction false} AdmittedCount(window: int, calls: seq<Call>, limit: int, i: nat, j: nat, last: nat)
    requires Clocked(calls) && i < j <= last < |calls| && window > 0 && calls[i].now == calls[last].now
    requires FixedLimit(calls, calls[i].agentId, limit) && LogAdmits(window, calls, i)
    ensures var a, r := calls[i].agentId, Answer(window, calls, i).remaining;
            |AdmittedBetween(window, calls, a, i, j)| ==
            if |CallsBetween(calls, a, i, j)| < r then |CallsBetween(calls, a, i, j)| else r
    decreases j
  {
    hide LogAdmits, LogWindow, Answer, CallsBetween, AdmittedBetween;
    var a := calls[i].agentId;
    AnswerToAdmitted(window, calls, i);
    AdmitsByWindow(window, calls, i);
    if j == i + 1 {
      NoneYet(window, calls, a, i);
    } else {
      var m := j - 1;
      AdmittedCount(window, calls, limit, i, m, last);
      OneMore(window, calls, a, i, m);
      if calls[m].agentId == a {
        WindowGrows(window, calls, i, m);
        AdmitsByWindow(window, calls, m);
      }
    }
  }

  lemma NoneYet(window: int, calls: seq<Call>, agentId: string, i: nat)
    requires i < |calls|
    ensures CallsBetween(calls, agentId, i, i + 1) == {} && AdmittedBetween(window, calls, agentId, i, i + 1) == {}
  {
  }

  lemma OneMore(window: int, calls: seq<Call>, agentId: string, i: nat, m: nat)
    requires i < m < |calls|
    ensures |CallsBetween(calls, agentId, i, m + 1)| ==
            |CallsBetween(calls, agentId, i, m)| + if calls[m].agentId == agentId then 1 else 0
    ensures |AdmittedBetween(window, calls, agentId, i, m + 1)| ==
            |AdmittedBetween(window, calls, agentId, i, m)| +
            if calls[m].agentId == agentId && LogAdmits(window, calls, m) then 1 else 0
  {
    hide LogAdmits;
    var called := if calls[m].agentId == agentId then {m} else {};
    var admitted := if calls[m].agentId == agentId && LogAdmits(window, calls, m) then {m} else {};
    assert CallsBetween(calls, agentId, i, m + 1) == CallsBetween(calls, agentId, i, m) + called;
    assert AdmittedBetween(window, calls, agentId, i, m + 1) ==
           AdmittedBetween(window, calls, agentId, i, m) + admitted;
  }

  /** An admission's `remaining` is exact: at that instant just so many more calls of the agent are admitted. */
  lemma RemainingIsExact(window: int, calls: seq<Call>, limit: int, i: nat, j: nat)
    requires Clocked(calls) && i < j < |calls| && window > 0
    requires FixedLimit(calls, calls[i].agentId, limit)
    requires calls[j].agentId == calls[i].agentId && calls[j].now == calls[i].now
    ensures var r := Answer(window, calls, i);
            r.allowed ==>
              (Answer(window, calls, j).allowed <==> |CallsBetween(calls, calls[i].agentId, i, j)| < r.remaining)
  {
    hide LogAdmits, LogWindow, Answer;
    LimiterRefinesLog(window, calls, i);
    LimiterRefinesLog(window, calls, j);
    if LogAdmits(window, calls, i) {
      AnswerToAdmitted(window, calls, i);
      AdmitsByWindow(window, calls, i);
      AdmittedCount(window, calls, limit, i, j, j);
      WindowGrows(window, calls, i, j);
      AdmitsByWindow(window, calls, j);
    }
  }
}
