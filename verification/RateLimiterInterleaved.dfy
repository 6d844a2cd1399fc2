/**
  Checks of one agent's calls interleaved at every await: reading the clock,
  trimming, counting, and the closing ZADD/EXPIRE transaction are separate steps
  of concurrent checks. Without a lock the limit can be overrun; this module
  proves by how much at most.
 */
module RateLimiterInterleaved {
  import opened RateLimiter
  import opened RateLimiterPromises

  // A check that has read the clock, and whether it has trimmed.
  datatype Reading = Reading(now: real, trimmed: bool)

  // One agent's key and the checks in progress. Admissions are numbered in the
  // order of their counts; `admitted[i]` is the clock reading of admission i,
  // which becomes its score.
  datatype State = State(
    clock: real,
    key: Key,
    reading: map<nat, Reading>,
    admitted: seq<real>,
    uncommitted: set<nat>)

  datatype Event =
    | Tick(now: real)
    | ReadClock(c: nat)
    | Trim(c: nat)
    | Count(c: nat)
    | Commit(i: nat)

  const INITIAL := State(0.0, Key(map[], 0.0), map[], [], {})

  function Found(s: State): map<nat, real> {
    if s.clock <= s.key.deadline then s.key.scores else map[]
  }

  // How many checks are between their clock reading and their end.
  function InFlight(s: State): nat {
    |s.reading| + |s.uncommitted|
  }

  predicate Enabled(s: State, e: Event) {
    match e
    case Tick(now) => s.clock <= now
    case ReadClock(c) => c !in s.reading
    case Trim(c) => c in s.reading && !s.reading[c].trimmed
    case Count(c) => c in s.reading && s.reading[c].trimmed
    case Commit(i) => i in s.uncommitted && i < |s.admitted|
  }

  function Apply(s: State, e: Event, window: int, limit: int): State
    requires Enabled(s, e)
  {
    match e
    case Tick(now) => s.(clock := now)
    case ReadClock(c) => s.(reading := s.reading[c := Reading(s.clock, false)])
    case Trim(c) =>
      s.(key := Key(WithoutScores(Found(s), 0.0, s.reading[c].now - window as real), s.key.deadline),
         reading := s.reading[c := Reading(s.reading[c].now, true)])
    case Count(c) =>
      if |Found(s)| >= limit then s.(reading := s.reading - {c})
      else s.(reading := s.reading - {c}, admitted := s.admitted + [s.reading[c].now],
              uncommitted := s.uncommitted + {|s.admitted|})
    case Commit(i) =>
      s.(key := Key(Found(s)[i := s.admitted[i]], s.clock + window as real), uncommitted := s.uncommitted - {i})
  }

  // A run with never more than k checks in flight, in which no check counts
  // later than `delay` after its clock reading.
  ghost predicate IsRun(events: seq<Event>, window: int, limit: int, k: int, delay: real)
    decreases |events|
  {
    events != [] ==>
      var before, e := events[..|events| - 1], events[|events| - 1];
      && IsRun(before, window, limit, k, delay)
      && var s := After(before, window, limit);
      && Enabled(s, e)
      && InFlight(Apply(s, e, window, limit)) <= k
      && (e.Count? ==> s.clock <= s.reading[e.c].now + delay)
  }

  ghost function After(events: seq<Event>, window: int, limit: int): State
    decreases |events|
  {
    if events == [] then INITIAL
    else
      var s, e := After(events[..|events| - 1], window, limit), events[|events| - 1];
      if Enabled(s, e) then Apply(s, e, window, limit) else s
  }

  // ---------------------------------------------------------------- invariant

  // An admission is under the key, or uncommitted, or a full window old.
  ghost predicate Accounted(s: State, window: int, i: nat)
    requires i < |s.admitted|
  {
    i in s.key.scores || i in s.uncommitted || s.admitted[i] + window as real <= s.clock
  }

  ghost predicate KeyOk(s: State, window: int, i: nat) {
    && i < |s.admitted|
    && i in s.key.scores && s.key.scores[i] == s.admitted[i]
    && s.admitted[i] + window as real <= s.key.deadline
  }

  ghost predicate TimesOk(s: State) {
    && 0.0 <= s.clock
    && (forall c :: c in s.reading ==> 0.0 <= s.reading[c].now <= s.clock)
    && (forall i :: 0 <= i < |s.admitted| ==> 0.0 <= s.admitted[i] <= s.clock)
    && (forall i :: i in s.uncommitted ==> i < |s.admitted|)
  }

  ghost predicate Invariant(s: State, window: int) {
    && TimesOk(s)
    && (forall i {:trigger KeyOk(s, window, i)} :: i in s.key.scores ==> KeyOk(s, window, i))
    && (forall i {:trigger Accounted(s, window, i)} :: 0 <= i < |s.admitted| ==> Accounted(s, window, i))
  }

  // The admissions up to a whose scores are less than `span` before a's.
  ghost function Crowd(admitted: seq<real>, a: nat, span: real): set<nat>
    requires a < |admitted|
  {
    set i: nat | 0 <= i <= a && admitted[i] > admitted[a] - span
  }

  ghost predicate Bounded(admitted: seq<real>, span: real, most: int) {
    forall a {:trigger Crowd(admitted, a, span)} :: 0 <= a < |admitted| ==> |Crowd(admitted, a, span)| <= most
  }

  lemma QuietStep(s: State, e: Event, window: int, limit: int)
    requires Invariant(s, window) && Enabled(s, e) && (e.Tick? || e.ReadClock?)
    ensures Invariant(Apply(s, e, window, limit), window)
  {
    var s' := Apply(s, e, window, limit);
    forall i | i in s'.key.scores ensures KeyOk(s', window, i) {
      assert KeyOk(s, window, i);
    }
    forall i | 0 <= i < |s'.admitted| ensures Accounted(s', window, i) {
      assert Accounted(s, window, i);
    }
  }

  lemma TrimStep(s: State, c: nat, window: int, limit: int)
    requires Invariant(s, window) && Enabled(s, Trim(c))
    ensures Invariant(Apply(s, Trim(c), window, limit), window)
  {
    var s' := Apply(s, Trim(c), window, limit);
    forall i | i in s'.key.scores ensures KeyOk(s', window, i) {
      assert KeyOk(s, window, i);
    }
    forall i | 0 <= i < |s'.admitted| ensures Accounted(s', window, i) {
      assert Accounted(s, window, i);
      assert i in s.key.scores ==> KeyOk(s, window, i);
    }
  }

  lemma CountStep(s: State, c: nat, window: int, limit: int)
    requires Invariant(s, window) && Enabled(s, Count(c))
    ensures Invariant(Apply(s, Count(c), window, limit), window)
  {
    var s' := Apply(s, Count(c), window, limit);
    forall i | i in s'.key.scores ensures KeyOk(s', window, i) {
      assert KeyOk(s, window, i);
    }
    forall i | 0 <= i < |s'.admitted| ensures Accounted(s', window, i) {
      assert i < |s.admitted| ==> Accounted(s, window, i);
    }
  }

  lemma CommitStep(s: State, n: nat, window: int, limit: int)
    requires Invariant(s, window) && Enabled(s, Commit(n))
    ensures Invariant(Apply(s, Commit(n), window, limit), window)
  {
    var s' := Apply(s, Commit(n), window, limit);
    forall i | i in s'.key.scores ensures KeyOk(s', window, i) {
      assert i != n ==> KeyOk(s, window, i);
    }
    forall i | 0 <= i < |s'.admitted| ensures Accounted(s', window, i) {
      assert Accounted(s, window, i);
      assert i in s.key.scores ==> KeyOk(s, window, i);
    }
  }

  lemma StepKeeps(s: State, e: Event, window: int, limit: int)
    requires Invariant(s, window) && Enabled(s, e)
    ensures Invariant(Apply(s, e, window, limit), window)
  {
    hide Invariant, Enabled, Apply;
    match e
    case Tick(_) => QuietStep(s, e, window, limit);
    case ReadClock(_) => QuietStep(s, e, window, limit);
    case Trim(c) => TrimStep(s, c, window, limit);
    case Count(c) => CountStep(s, c, window, limit);
    case Commit(n) => CommitStep(s, n, window, limit);
  }

  // An admission still in the window is found, or in flight.
  lemma YoungIsSeen(s: State, window: int, i: nat)
    requires Invariant(s, window) && i < |s.admitted| && s.admitted[i] + window as real > s.clock
    ensures i in Found(s) || i in s.uncommitted
  {
    assert Accounted(s, window, i);
    assert i in s.key.scores ==> KeyOk(s, window, i);
  }

  lemma SeenSize(a: set<nat>, found: map<nat, real>, uncommitted: set<nat>, n: nat)
    requires forall i :: i in a ==> i in found || i in uncommitted || i == n
    ensures |a| <= |found| + |uncommitted| + 1
  {
    SubsetSize(a, found.Keys + uncommitted + {n});
    UnionSize(found.Keys, uncommitted);
    UnionSize(found.Keys + uncommitted, {n});
    assert |found.Keys| == |found|;
  }

  lemma SomeReading(s: State, c: nat)
    requires c in s.reading
    ensures |s.reading| >= 1
  {
    assert c in s.reading.Keys;
    assert |s.reading| == |s.reading.Keys|;
    SubsetSize({c}, s.reading.Keys);
  }

  // What a count can miss is in flight; what it sees is below the limit.
  lemma CountBounds(s: State, c: nat, window: int, limit: int, k: int, delay: real)
    requires Invariant(s, window) && c in s.reading && |Found(s)| < limit && InFlight(s) <= k
    requires s.clock <= s.reading[c].now + delay
    ensures var admitted := s.admitted + [s.reading[c].now];
            |Crowd(admitted, |s.admitted|, window as real - delay)| <= limit + k - 1
  {
    hide Invariant, Found;
    var n := |s.admitted|;
    var admitted := s.admitted + [s.reading[c].now];
    var crowd := Crowd(admitted, n, window as real - delay);
    forall i | i in crowd && i != n ensures i in Found(s) || i in s.uncommitted {
      assert admitted[i] == s.admitted[i];
      YoungIsSeen(s, window, i);
    }
    SeenSize(crowd, Found(s), s.uncommitted, n);
    SomeReading(s, c);
  }

  lemma UnionSize(a: set<nat>, b: set<nat>)
    ensures |a + b| <= |a| + |b|
  {
    assert a + b == a + (b - a);
    SubsetSize(b - a, b);
  }

  lemma StepBounds(s: State, e: Event, window: int, limit: int, k: int, delay: real)
    requires Invariant(s, window) && Enabled(s, e) && InFlight(s) <= k
    requires e.Count? ==> s.clock <= s.reading[e.c].now + delay
    requires Bounded(s.admitted, window as real - delay, limit + k - 1)
    ensures Bounded(Apply(s, e, window, limit).admitted, window as real - delay, limit + k - 1)
  {
    var s' := Apply(s, e, window, limit);
    var span := window as real - delay;
    if e.Count? && |Found(s)| < limit {
      CountBounds(s, e.c, window, limit, k, delay);
      forall a | 0 <= a < |s'.admitted| ensures |Crowd(s'.admitted, a, span)| <= limit + k - 1 {
        if a < |s.admitted| {
          assert Crowd(s'.admitted, a, span) == Crowd(s.admitted, a, span);
        }
      }
    }
  }

  lemma {:induction false} RunsKeep(events: seq<Event>, window: int, limit: int, k: int, delay: real)
    requires k >= 0 && IsRun(events, window, limit, k, delay)
    ensures var s := After(events, window, limit);
            Invariant(s, window) && InFlight(s) <= k && Bounded(s.admitted, window as real - delay, limit + k - 1)
    decreases |events|
  {
    if events != [] {
      var before, e := events[..|events| - 1], events[|events| - 1];
      RunsKeep(before, window, limit, k, delay);
      StepKeeps(After(before, window, limit), e, window, limit);
      StepBounds(After(before, window, limit), e, window, limit, k, delay);
    }
  }

  // The admissions whose scores lie in (t - span, t].
  ghost function InWindow(admitted: seq<real>, span: real, t: real): set<nat> {
    set i: nat | 0 <= i < |admitted| && t - span < admitted[i] <= t
  }

  /**
    With at most k checks in flight, and none counting later than `delay` after
    reading the clock, no window (t - (window - delay), t] holds more than
    limit + k - 1 admitted calls. With prompt counts the window is the limiter's
    own; with one check at a time the bound is the limit.
   */
  lemma OverrunIsBounded(events: seq<Event>, window: int, limit: nat, k: nat, delay: real, t: real)
    requires k >= 1 && IsRun(events, window, limit, k, delay)
    ensures |InWindow(After(events, window, limit).admitted, window as real - delay, t)| <= limit + k - 1
  {
    hide IsRun, After, Invariant, Bounded, InWindow, InFlight;
    RunsKeep(events, window, limit, k, delay);
    BoundedWindow(After(events, window, limit).admitted, window as real - delay, limit + k - 1, t);
  }

  lemma BoundedWindow(admitted: seq<real>, span: real, most: int, t: real)
    requires Bounded(admitted, span, most) && most >= 0
    ensures |InWindow(admitted, span, t)| <= most
  {
    var inside := InWindow(admitted, span, t);
    if inside != {} {
      var a := LastOf(inside);
      assert inside <= Crowd(admitted, a, span);
      SubsetSize(inside, Crowd(admitted, a, span));
    }
  }

  // ------------------------------------------------------------- one check alone

  // The one key of a store.
  function StoreOf(k: Key): Store {
    map["ratelimit" := k]
  }

  /**
    A check that nothing interleaves is the limiter's atomic check: its steps admit the
    same calls and leave the same scores under the key.
   */
  lemma AloneIsAtomic(s: State, c: nat, window: int, limit: int)
    requires s.reading == map[] && s.uncommitted == {}
    ensures var n := |s.admitted|;
            var (t, r) := Checked(StoreOf(s.key), window, "ratelimit", limit, s.clock, n);
            var trimmed := Apply(Apply(s, ReadClock(c), window, limit), Trim(c), window, limit);
            var counted := Apply(trimmed, Count(c), window, limit);
            && counted.reading == map[] && s.admitted <= counted.admitted
            && if r.allowed then
                 && counted.admitted == s.admitted + [s.clock] && counted.uncommitted == {n}
                 && KeyOf(t, "ratelimit") == Apply(counted, Commit(n), window, limit).key
               else
                 && counted.admitted == s.admitted && counted.uncommitted == {}
                 && Visible(t, "ratelimit", s.clock) == Found(counted)
  {
    hide Checked, Visible, Zremrangebyscore, ZaddExpire, WithoutScores;
    var n := |s.admitted|;
    var read := Apply(s, ReadClock(c), window, limit);
    var trimmed := Apply(read, Trim(c), window, limit);
    assert trimmed == s.(key := trimmed.key, reading := map[c := Reading(s.clock, true)]);
    assert trimmed.reading - {c} == map[];
    TrimAlone(s, read, c, window, limit);
    CheckedAlone(s, trimmed, window, limit);
  }

  function AtomicTrim(k: Key, window: int, now: real): map<nat, real> {
    Visible(Zremrangebyscore(StoreOf(k), "ratelimit", 0.0, now - window as real, now), "ratelimit", now)
  }

  // The atomic trim leaves what the trim of one check alone leaves.
  lemma TrimAlone(s: State, read: State, c: nat, window: int, limit: int)
    requires read == s.(reading := map[c := Reading(s.clock, false)])
    ensures AtomicTrim(s.key, window, s.clock) == Found(Apply(read, Trim(c), window, limit))
  {
    assert WithoutScores(map[], 0.0, s.clock - window as real) == map[];
  }

  lemma CheckedAlone(s: State, trimmed: State, window: int, limit: int)
    requires trimmed.clock == s.clock
    requires AtomicTrim(s.key, window, s.clock) == Found(trimmed)
    ensures var (t, r) := Checked(StoreOf(s.key), window, "ratelimit", limit, s.clock, |s.admitted|);
            && (r.allowed <==> |Found(trimmed)| < limit)
            && (r.allowed ==>
                  KeyOf(t, "ratelimit") == Key(Found(trimmed)[|s.admitted| := s.clock], s.clock + window as real))
            && (!r.allowed ==> Visible(t, "ratelimit", s.clock) == Found(trimmed))
  {
    hide Visible, Zremrangebyscore, Found, ResetAt, Truncate;
  }

  // ------------------------------------------------------ with any delay

  // The checks in flight that read the clock by t.
  ghost function ReadBy(s: State, t: real): set<nat> {
    set c | c in s.reading && s.reading[c].now <= t
  }

  // While the clock has not passed t, overlap alone adds to the window that ends at t;
  // after that, so does each check that read the clock by then.
  ghost predicate Counted(s: State, window: int, limit: int, k: int, t: real) {
    var inside := |InWindow(s.admitted, window as real, t)|;
    if s.clock <= t then inside <= limit + k - 1 else inside + |ReadBy(s, t)| <= limit + 2 * k - 1
  }

  // What a count by time t can miss is in flight, whatever the delay.
  lemma CountedWithin(s: State, c: nat, window: int, limit: int, k: int, t: real)
    requires Invariant(s, window) && c in s.reading && |Found(s)| < limit && InFlight(s) <= k && s.clock <= t
    ensures |InWindow(s.admitted + [s.reading[c].now], window as real, t)| <= limit + k - 1
  {
    hide Invariant, Found;
    var n := |s.admitted|;
    var admitted := s.admitted + [s.reading[c].now];
    var inside := InWindow(admitted, window as real, t);
    forall i | i in inside && i != n ensures i in Found(s) || i in s.uncommitted {
      assert admitted[i] == s.admitted[i];
      YoungIsSeen(s, window, i);
    }
    SeenSize(inside, Found(s), s.uncommitted, n);
    SomeReading(s, c);
  }

  lemma ReadByInFlight(s: State, t: real)
    ensures |ReadBy(s, t)| <= |s.reading|
  {
    SubsetSize(ReadBy(s, t), s.reading.Keys);
    assert |s.reading.Keys| == |s.reading|;
  }

  lemma AdmissionCounts(admitted: seq<real>, x: real, window: int, t: real)
    ensures |InWindow(admitted + [x], window as real, t)|
              <= |InWindow(admitted, window as real, t)| + if x <= t then 1 else 0
  {
    var more := InWindow(admitted + [x], window as real, t);
    var inside := InWindow(admitted, window as real, t);
    if x <= t {
      SubsetSize(more, inside + {|admitted|});
      UnionSize(inside, {|admitted|});
    } else {
      SubsetSize(more, inside);
    }
  }

  lemma CountedCount(s: State, c: nat, window: int, limit: int, k: int, t: real)
    requires Invariant(s, window) && Enabled(s, Count(c)) && InFlight(s) <= k && Counted(s, window, limit, k, t)
    ensures Counted(Apply(s, Count(c), window, limit), window, limit, k, t)
  {
    hide InWindow, Invariant, InFlight;
    var s' := Apply(s, Count(c), window, limit);
    if s.clock <= t {
      if |Found(s)| < limit {
        CountedWithin(s, c, window, limit, k, t);
      }
    } else {
      AdmissionCounts(s.admitted, s.reading[c].now, window, t);
      if s.reading[c].now <= t {
        assert ReadBy(s', t) == ReadBy(s, t) - {c};
      } else {
        assert ReadBy(s', t) == ReadBy(s, t);
      }
    }
  }

  lemma CountedStep(s: State, e: Event, window: int, limit: int, k: int, t: real)
    requires Invariant(s, window) && Enabled(s, e) && InFlight(s) <= k && Counted(s, window, limit, k, t)
    ensures Counted(Apply(s, e, window, limit), window, limit, k, t)
  {
    hide InWindow, Invariant;
    var s' := Apply(s, e, window, limit);
    match e
    case Tick(_) =>
      ReadByInFlight(s, t);
      assert ReadBy(s', t) == ReadBy(s, t);
    case ReadClock(c) =>
      if s.clock > t {
        assert ReadBy(s', t) == ReadBy(s, t);
      }
    case Trim(c) => assert ReadBy(s', t) == ReadBy(s, t);
    case Count(c) => CountedCount(s, c, window, limit, k, t);
    case Commit(_) => assert ReadBy(s', t) == ReadBy(s, t);
  }

  lemma {:induction false} RunsCounted(events: seq<Event>, window: int, limit: nat, k: nat, delay: real, t: real)
    requires k >= 1 && IsRun(events, window, limit, k, delay)
    ensures Counted(After(events, window, limit), window, limit, k, t)
    decreases |events|
  {
    hide Apply, Enabled, InFlight, Invariant, Bounded, Counted;
    if events == [] {
      StartCounted(events, window, limit, k, t);
    } else {
      var before, e := events[..|events| - 1], events[|events| - 1];
      RunsCounted(before, window, limit, k, delay, t);
      RunsKeep(before, window, limit, k, delay);
      CountedStep(After(before, window, limit), e, window, limit, k, t);
    }
  }

  lemma StartCounted(events: seq<Event>, window: int, limit: nat, k: nat, t: real)
    requires events == [] && k >= 1
    ensures Counted(After(events, window, limit), window, limit, k, t)
  {
  }

  /**
    However long checks take, with at most k in flight no window of the limiter's own
    length holds more than limit + 2 * k - 1 admitted calls.
   */
  lemma SlowOverrunIsBounded(events: seq<Event>, window: int, limit: nat, k: nat, delay: real, t: real)
    requires k >= 1 && IsRun(events, window, limit, k, delay)
    ensures |InWindow(After(events, window, limit).admitted, window as real, t)| <= limit + 2 * k - 1
  {
    hide IsRun, After, InWindow;
    RunsCounted(events, window, limit, k, delay, t);
  }

  // ---------------------------------------------------------- the bound is reached

  lemma Next(before: seq<Event>, e: Event, window: int, limit: int, k: int, delay: real)
    requires IsRun(before, window, limit, k, delay)
    requires var s := After(before, window, limit);
             && Enabled(s, e) && InFlight(Apply(s, e, window, limit)) <= k
             && (e.Count? ==> s.clock <= s.reading[e.c].now + delay)
    ensures IsRun(before + [e], window, limit, k, delay)
    ensures After(before + [e], window, limit) == Apply(After(before, window, limit), e, window, limit)
  {
    assert (before + [e])[..|before|] == before;
  }

  // n admissions at time 0 are committed and nothing is in flight.
  ghost predicate AtRest(s: State, n: nat, window: int) {
    && s.clock == 0.0 && s.reading == map[] && s.uncommitted == {}
    && |s.admitted| == n && (forall i :: 0 <= i < n ==> s.admitted[i] == 0.0)
    && AllAtZero(s.key.scores, n) && s.key.deadline == if n == 0 then 0.0 else window as real
  }

  ghost predicate AllAtZero(scores: map<nat, real>, n: nat) {
    |scores| == n && (forall i: nat :: i in scores <==> i < n) && forall i :: i in scores ==> scores[i] == 0.0
  }

  function Check(c: nat, i: nat): seq<Event> {
    [ReadClock(c), Trim(c), Count(c), Commit(i)]
  }

  // n checks, one after the other.
  function Checks(n: nat): seq<Event> {
    if n == 0 then [] else Checks(n - 1) + Check(0, n - 1)
  }

  // A trim at time 0 finds nothing a window old.
  lemma NothingToTrim(scores: map<nat, real>, n: nat, window: int)
    requires AllAtZero(scores, n) && window > 0
    ensures WithoutScores(scores, 0.0, 0.0 - window as real) == scores
  {
  }

  lemma OneCheck(before: seq<Event>, n: nat, window: int, limit: int, k: int, delay: real)
    requires window > 0 && n < limit && k >= 1 && delay >= 0.0
    requires IsRun(before, window, limit, k, delay) && AtRest(After(before, window, limit), n, window)
    ensures IsRun(before + Check(0, n), window, limit, k, delay)
    ensures AtRest(After(before + Check(0, n), window, limit), n + 1, window)
  {
    hide IsRun, After, WithoutScores;
    var s := After(before, window, limit);
    NothingToTrim(s.key.scores, n, window);
    var a1 := before + [ReadClock(0)];
    var a2 := a1 + [Trim(0)];
    var a3 := a2 + [Count(0)];
    Next(before, ReadClock(0), window, limit, k, delay);
    Next(a1, Trim(0), window, limit, k, delay);
    assert After(a2, window, limit) == s.(reading := map[0 := Reading(0.0, true)]);
    Next(a2, Count(0), window, limit, k, delay);
    assert After(a3, window, limit) == s.(admitted := s.admitted + [0.0], uncommitted := {n});
    Next(a3, Commit(n), window, limit, k, delay);
    assert a3 + [Commit(n)] == before + Check(0, n);
    AddedAtZero(s.key.scores, n);
  }

  lemma AddedAtZero(scores: map<nat, real>, n: nat)
    requires AllAtZero(scores, n)
    ensures AllAtZero(scores[n := 0.0], n + 1)
  {
  }

  lemma {:induction false} CompleteChecks(n: nat, window: int, limit: int, k: int, delay: real)
    requires window > 0 && n <= limit && k >= 1 && delay >= 0.0
    ensures IsRun(Checks(n), window, limit, k, delay)
    ensures AtRest(After(Checks(n), window, limit), n, window)
  {
    hide AtRest, IsRun, After, Check;
    if n == 0 {
      StartsAtRest(window, limit, k, delay);
    } else {
      CompleteChecks(n - 1, window, limit, k, delay);
      OneCheck(Checks(n - 1), n - 1, window, limit, k, delay);
    }
  }

  lemma StartsAtRest(window: int, limit: int, k: int, delay: real)
    ensures IsRun([], window, limit, k, delay) && AtRest(After([], window, limit), 0, window)
  {
  }

  lemma {:induction false} AllInWindow(admitted: seq<real>, span: real, t: real)
    requires forall i :: 0 <= i < |admitted| ==> t - span < admitted[i] <= t
    ensures |InWindow(admitted, span, t)| == |admitted|
  {
    if admitted != [] {
      var n := |admitted| - 1;
      AllInWindow(admitted[..n], span, t);
      assert InWindow(admitted, span, t) == InWindow(admitted[..n], span, t) + {n};
    }
  }

  // k checks that do the same thing, one after the other.
  function Reads(k: nat): seq<Event> {
    if k == 0 then [] else Reads(k - 1) + [ReadClock(k - 1)]
  }

  function Trims(k: nat): seq<Event> {
    if k == 0 then [] else Trims(k - 1) + [Trim(k - 1)]
  }

  function Counts(k: nat): seq<Event> {
    if k == 0 then [] else Counts(k - 1) + [Count(k - 1)]
  }

  // The commits of k admissions from number n on.
  function Commits(n: nat, k: nat): seq<Event> {
    if k == 0 then [] else Commits(n, k - 1) + [Commit(n + k - 1)]
  }

  // Checks below m have read the clock at `now`, those below `trimmed` have trimmed too,
  // those below `counted` are through with counting.
  ghost predicate Abreast(reading: map<nat, Reading>, now: real, m: nat, trimmed: nat, counted: nat) {
    && counted <= m && |reading| == m - counted
    && (forall c: nat :: c in reading <==> counted <= c < m)
    && (forall c :: c in reading ==> reading[c] == Reading(now, c < trimmed))
  }

  // s with m clock readings added.
  ghost predicate HasRead(s: State, s': State, m: nat) {
    s' == s.(reading := s'.reading) && Abreast(s'.reading, s.clock, m, 0, 0)
  }

  lemma {:induction false} AllRead(before: seq<Event>, m: nat, window: int, limit: int, k: int, delay: real)
    requires IsRun(before, window, limit, k, delay) && m <= k
    requires var s := After(before, window, limit); s.reading == map[] && s.uncommitted == {}
    ensures IsRun(before + Reads(m), window, limit, k, delay)
    ensures HasRead(After(before, window, limit), After(before + Reads(m), window, limit), m)
  {
    hide IsRun, After;
    if m == 0 {
      assert before + Reads(0) == before;
    } else {
      var a := before + Reads(m - 1);
      AllRead(before, m - 1, window, limit, k, delay);
      Next(a, ReadClock(m - 1), window, limit, k, delay);
      assert a + [ReadClock(m - 1)] == before + Reads(m);
    }
  }

  // There is nothing for a check that read the clock at `now` to trim.
  ghost predicate NothingOld(s: State, now: real, window: int) {
    WithoutScores(Found(s), 0.0, now - window as real) == Found(s)
  }

  // s with m checks trimmed, and the same scores to be found.
  ghost predicate HasTrimmed(s: State, s': State, now: real, k: nat, m: nat) {
    && s' == s.(reading := s'.reading, key := s'.key) && Found(s') == Found(s)
    && Abreast(s'.reading, now, k, m, 0)
  }

  lemma TrimmedStep(s: State, s': State, now: real, k: nat, m: nat, window: int, limit: int)
    requires HasTrimmed(s, s', now, k, m) && m < k && NothingOld(s, now, window)
    ensures Enabled(s', Trim(m)) && HasTrimmed(s, Apply(s', Trim(m), window, limit), now, k, m + 1)
    ensures InFlight(Apply(s', Trim(m), window, limit)) == InFlight(s')
  {
    hide WithoutScores;
  }

  lemma {:induction false} AllTrim(before: seq<Event>, now: real, m: nat, window: int, limit: int, k: nat, delay: real)
    requires IsRun(before, window, limit, k, delay) && m <= k
    requires var s := After(before, window, limit);
             Abreast(s.reading, now, k, 0, 0) && s.uncommitted == {} && NothingOld(s, now, window)
    ensures IsRun(before + Trims(m), window, limit, k, delay)
    ensures HasTrimmed(After(before, window, limit), After(before + Trims(m), window, limit), now, k, m)
  {
    hide IsRun, After, NothingOld, Apply, Enabled;
    if m == 0 {
      assert before + Trims(0) == before;
    } else {
      var a := before + Trims(m - 1);
      AllTrim(before, now, m - 1, window, limit, k, delay);
      TrimmedStep(After(before, window, limit), After(a, window, limit), now, k, m - 1, window, limit);
      Next(a, Trim(m - 1), window, limit, k, delay);
      assert a + [Trim(m - 1)] == before + Trims(m);
    }
  }

  function Copies(x: real, m: nat): (xs: seq<real>)
    ensures |xs| == m && forall i :: 0 <= i < m ==> xs[i] == x
  {
    if m == 0 then [] else Copies(x, m - 1) + [x]
  }

  ghost predicate Numbers(ns: set<nat>, from: nat, to: nat) {
    from <= to && |ns| == to - from && forall i: nat :: i in ns <==> from <= i < to
  }

  // s with m checks through their count, all admitted.
  ghost predicate HasCounted(s: State, s': State, now: real, k: nat, m: nat) {
    && s' == s.(reading := s'.reading, admitted := s.admitted + Copies(now, m), uncommitted := s'.uncommitted)
    && Abreast(s'.reading, now, k, k, m) && Numbers(s'.uncommitted, |s.admitted|, |s.admitted| + m)
  }

  lemma OneLess(reading: map<nat, Reading>, c: nat)
    requires c in reading
    ensures |reading - {c}| == |reading| - 1
  {
    assert (reading - {c}).Keys == reading.Keys - {c};
    assert |reading.Keys| == |reading| && |(reading - {c}).Keys| == |reading - {c}|;
  }

  lemma CountedOne(s: State, s': State, now: real, k: nat, m: nat, window: int, limit: int)
    requires HasCounted(s, s', now, k, m) && m < k && |Found(s)| < limit
    ensures Enabled(s', Count(m)) && HasCounted(s, Apply(s', Count(m), window, limit), now, k, m + 1)
    ensures InFlight(Apply(s', Count(m), window, limit)) == k && s'.reading[m].now == now
  {
    OneLess(s'.reading, m);
    assert s.admitted + Copies(now, m) + [now] == s.admitted + Copies(now, m + 1);
  }

  lemma {:induction false} AllCount(before: seq<Event>, now: real, m: nat, window: int, limit: int, k: nat, delay: real)
    requires IsRun(before, window, limit, k, delay) && m <= k
    requires var s := After(before, window, limit);
             && Abreast(s.reading, now, k, k, 0) && s.uncommitted == {} && |Found(s)| < limit && s.clock <= now + delay
    ensures IsRun(before + Counts(m), window, limit, k, delay)
    ensures HasCounted(After(before, window, limit), After(before + Counts(m), window, limit), now, k, m)
  {
    hide IsRun, After, Apply, Enabled, Abreast, Found;
    if m == 0 {
      assert before + Counts(0) == before;
      assert After(before, window, limit).admitted + [] == After(before, window, limit).admitted;
    } else {
      var a := before + Counts(m - 1);
      AllCount(before, now, m - 1, window, limit, k, delay);
      CountedOne(After(before, window, limit), After(a, window, limit), now, k, m - 1, window, limit);
      Next(a, Count(m - 1), window, limit, k, delay);
      assert a + [Count(m - 1)] == before + Counts(m);
    }
  }

  // k checks that read the clock when n admissions are committed at time 0, and count at once.
  function Overlap(limit: nat, k: nat): seq<Event>
    requires limit >= 1
  {
    Checks(limit - 1) + Reads(k) + Trims(k) + Counts(k)
  }

  lemma OverlapRuns(window: int, limit: nat, k: nat, delay: real)
    requires window > 0 && limit >= 1 && k >= 1 && delay >= 0.0
    ensures IsRun(Overlap(limit, k), window, limit, k, delay)
    ensures var s, at := After(Overlap(limit, k), window, limit), After(Checks(limit - 1), window, limit);
            && AtRest(at, limit - 1, window)
            && s.clock == 0.0 && s.reading == map[] && s.admitted == at.admitted + Copies(0.0, k)
            && Found(s) == at.key.scores && Numbers(s.uncommitted, limit - 1, limit - 1 + k)
  {
    hide IsRun, After, WithoutScores, Numbers;
    var n := limit - 1;
    CompleteChecks(n, window, limit, k, delay);
    var a0 := Checks(n);
    var a1 := a0 + Reads(k);
    var a2 := a1 + Trims(k);
    NothingToTrim(After(a0, window, limit).key.scores, n, window);
    AllRead(a0, k, window, limit, k, delay);
    AllTrim(a1, 0.0, k, window, limit, k, delay);
    AllCount(a2, 0.0, k, window, limit, k, delay);
    assert After(a2 + Counts(k), window, limit).reading == map[];
  }

  /**
    The bound is reached, for every limit and every number of checks: after limit - 1
    checks one by one, k checks that all count before any commits are all admitted, at
    one instant and without any delay.
   */
  lemma OverlapReachesBound(window: int, limit: nat, k: nat)
    requires window > 0 && limit >= 1 && k >= 1
    ensures IsRun(Overlap(limit, k), window, limit, k, 0.0)
    ensures |InWindow(After(Overlap(limit, k), window, limit).admitted, window as real, 0.0)| == limit + k - 1
  {
    hide IsRun, After, Overlap;
    OverlapRuns(window, limit, k, 0.0);
    AllInWindow(After(Overlap(limit, k), window, limit).admitted, window as real, 0.0);
  }

  // Of k admissions from number n on, all at time 0, the first m are committed.
  ghost predicate HasCommitted(s: State, n: nat, k: nat, m: nat, window: int) {
    && s.clock == 0.0 && s.reading == map[]
    && |s.admitted| == n + k && (forall i :: 0 <= i < n + k ==> s.admitted[i] == 0.0)
    && m <= k && Numbers(s.uncommitted, n + m, n + k)
    && AllAtZero(Found(s), n + m) && (m > 0 ==> s.key.deadline == window as real)
  }

  lemma CommittedOne(s: State, n: nat, k: nat, m: nat, window: int, limit: int)
    requires HasCommitted(s, n, k, m, window) && m < k && window > 0
    ensures Enabled(s, Commit(n + m)) && HasCommitted(Apply(s, Commit(n + m), window, limit), n, k, m + 1, window)
    ensures InFlight(Apply(s, Commit(n + m), window, limit)) <= InFlight(s)
  {
    hide Numbers, AllAtZero;
    AddedAtZero(Found(s), n + m);
    OneFewer(s.uncommitted, n + m, n + k);
    assert n + m + 1 == n + (m + 1);
  }

  lemma OneFewer(ns: set<nat>, from: nat, to: nat)
    requires Numbers(ns, from, to) && from < to
    ensures from in ns && |ns - {from}| == |ns| - 1 && Numbers(ns - {from}, from + 1, to)
  {
  }

  lemma {:induction false} AllCommit(before: seq<Event>, n: nat, m: nat, window: int, limit: int, k: nat, delay: real)
    requires IsRun(before, window, limit, k, delay) && HasCommitted(After(before, window, limit), n, k, 0, window)
    requires m <= k && window > 0
    ensures IsRun(before + Commits(n, m), window, limit, k, delay)
    ensures HasCommitted(After(before + Commits(n, m), window, limit), n, k, m, window)
  {
    hide IsRun, After, HasCommitted, Apply, Enabled;
    if m == 0 {
      assert before + Commits(n, 0) == before;
    } else {
      var a := before + Commits(n, m - 1);
      AllCommit(before, n, m - 1, window, limit, k, delay);
      CommittedOne(After(a, window, limit), n, k, m - 1, window, limit);
      CommittedInFlight(After(a, window, limit), n, k, m - 1, window);
      Next(a, Commit(n + m - 1), window, limit, k, delay);
      assert a + [Commit(n + m - 1)] == before + Commits(n, m);
    }
  }

  lemma CommittedInFlight(s: State, n: nat, k: nat, m: nat, window: int)
    requires HasCommitted(s, n, k, m, window)
    ensures InFlight(s) <= k
  {
  }

  // The overlapping checks commit; then k more read the clock shortly before the key
  // expires and count shortly after.
  function SlowOverlap(window: int, limit: nat, k: nat, delay: real): seq<Event>
    requires limit >= 1
  {
    Overlap(limit, k) + Commits(limit - 1, k)
      + ([Tick(window as real - delay / 2.0)] + Reads(k))
      + ([Tick(window as real + delay / 2.0)] + Trims(k)) + Counts(k)
  }

  lemma RestAfterOverlap(window: int, limit: nat, k: nat, delay: real)
    requires window > 0 && limit >= 1 && k >= 1 && delay >= 0.0
    ensures var events := Overlap(limit, k) + Commits(limit - 1, k);
            IsRun(events, window, limit, k, delay) && AtRest(After(events, window, limit), limit + k - 1, window)
  {
    hide IsRun, After, Overlap;
    OverlapRuns(window, limit, k, delay);
    AllCommit(Overlap(limit, k), limit - 1, k, window, limit, k, delay);
    CommittedRests(After(Overlap(limit, k) + Commits(limit - 1, k), window, limit), limit - 1, k, window);
  }

  lemma CommittedRests(s: State, n: nat, k: nat, window: int)
    requires HasCommitted(s, n, k, k, window) && k >= 1 && window > 0
    ensures AtRest(s, n + k, window)
  {
  }

  lemma LateRead(before: seq<Event>, n: nat, t: real, u: real, window: int, limit: nat, k: nat, delay: real)
    requires IsRun(before, window, limit, k, delay) && AtRest(After(before, window, limit), n, window)
    requires k >= 1 && 0.0 <= t <= u
    ensures var events := before + ([Tick(t)] + Reads(k)) + [Tick(u)];
            var s, s' := After(before, window, limit), After(events, window, limit);
            && IsRun(events, window, limit, k, delay)
            && s' == s.(clock := u, reading := s'.reading) && Abreast(s'.reading, t, k, 0, 0)
  {
    hide IsRun, After, Abreast;
    var a1 := before + [Tick(t)];
    var a2 := a1 + Reads(k);
    Next(before, Tick(t), window, limit, k, delay);
    AllRead(a1, k, window, limit, k, delay);
    AbreastInFlight(After(a2, window, limit), t, k);
    Next(a2, Tick(u), window, limit, k, delay);
    assert a2 + [Tick(u)] == before + ([Tick(t)] + Reads(k)) + [Tick(u)];
  }

  lemma AbreastInFlight(s: State, t: real, k: nat)
    requires Abreast(s.reading, t, k, 0, 0) && s.uncommitted == {}
    ensures InFlight(s) == k
  {
  }

  lemma LateCount(before: seq<Event>, t: real, window: int, limit: nat, k: nat, delay: real)
    requires IsRun(before, window, limit, k, delay) && limit >= 1
    requires var s := After(before, window, limit);
             && Abreast(s.reading, t, k, 0, 0) && s.uncommitted == {} && s.key.deadline < s.clock <= t + delay
    ensures var events := before + Trims(k) + Counts(k);
            && IsRun(events, window, limit, k, delay)
            && After(events, window, limit).admitted == After(before, window, limit).admitted + Copies(t, k)
  {
    hide IsRun, After;
    AllTrim(before, t, k, window, limit, k, delay);
    AllCount(before + Trims(k), t, k, window, limit, k, delay);
  }

  /**
    That bound is reached too, with any delay however little: limit + k - 1 calls are
    admitted by overlap, their key expires between the clock reading and the count of k
    more, and these are all admitted within the window of the others. With k = 1, one
    check at a time exceeds the limit by one.
   */
  lemma SlowOverlapReachesBound(window: int, limit: nat, k: nat, delay: real)
    requires limit >= 1 && k >= 1 && 0.0 < delay < window as real
    ensures var events, t := SlowOverlap(window, limit, k, delay), window as real - delay / 2.0;
            && IsRun(events, window, limit, k, delay)
            && |InWindow(After(events, window, limit).admitted, window as real, t)| == limit + 2 * k - 1
  {
    hide IsRun, After, Overlap;
    var t, u := window as real - delay / 2.0, window as real + delay / 2.0;
    var n := limit + k - 1;
    var a0 := Overlap(limit, k) + Commits(limit - 1, k);
    var a1 := a0 + ([Tick(t)] + Reads(k)) + [Tick(u)];
    RestAfterOverlap(window, limit, k, delay);
    LateRead(a0, n, t, u, window, limit, k, delay);
    LateCount(a1, t, window, limit, k, delay);
    assert a1 + Trims(k) + Counts(k) == SlowOverlap(window, limit, k, delay);
    AllInWindow(After(a0, window, limit).admitted + Copies(t, k), window as real, t);
  }

  lemma {:induction false} LooserRun(events: seq<Event>, window: int, limit: int, k: int, delay: real, k': int,
                                     delay': real)
    requires IsRun(events, window, limit, k, delay) && k <= k' && delay <= delay'
    ensures IsRun(events, window, limit, k', delay')
    decreases |events|
  {
    hide Apply, Enabled, InFlight, After;
    if events != [] {
      LooserRun(events[..|events| - 1], window, limit, k, delay, k', delay');
    }
  }

  // The calls admitted in the limiter's own window that ends at t.
  ghost function AdmittedBy(events: seq<Event>, window: int, limit: nat, t: real): set<nat> {
    InWindow(After(events, window, limit).admitted, window as real, t)
  }

  // No window, wherever it ends, holds more admitted calls than the limit.
  ghost predicate LimitKeptIn(events: seq<Event>, window: int, limit: nat) {
    forall t :: |AdmittedBy(events, window, limit, t)| <= limit
  }

  /**
    The limit is kept on every run exactly when checks neither overlap nor take time
    between reading the clock and counting.
   */
  lemma LimitKeptIff(window: int, limit: nat, k: nat, delay: real)
    requires window > 0 && limit >= 1 && k >= 1 && delay >= 0.0
    ensures (forall events {:trigger LimitKeptIn(events, window, limit)} ::
               IsRun(events, window, limit, k, delay) ==> LimitKeptIn(events, window, limit))
       <==> k == 1 && delay == 0.0
  {
    hide IsRun, After, InWindow, Overlap, SlowOverlap;
    if k == 1 && delay == 0.0 {
      forall events | IsRun(events, window, limit, k, delay) ensures LimitKeptIn(events, window, limit) {
        forall t ensures |AdmittedBy(events, window, limit, t)| <= limit {
          OverrunIsBounded(events, window, limit, k, delay, t);
        }
      }
    } else if k > 1 {
      var events := Overlap(limit, k);
      OverlapReachesBound(window, limit, k);
      LooserRun(events, window, limit, k, 0.0, k, delay);
      assert |AdmittedBy(events, window, limit, 0.0)| > limit;
      assert !LimitKeptIn(events, window, limit);
    } else {
      var little := if delay < window as real then delay else window as real / 2.0;
      var t := window as real - little / 2.0;
      var events := SlowOverlap(window, limit, 1, little);
      SlowOverlapReachesBound(window, limit, 1, little);
      LooserRun(events, window, limit, 1, little, k, delay);
      assert |AdmittedBy(events, window, limit, t)| > limit;
      assert !LimitKeptIn(events, window, limit);
    }
  }
}
