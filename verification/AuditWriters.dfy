/**
  Any number of concurrent writers of the audit log, interleaved at the awaits of
  one recording: take the advisory lock, read the newest hash, insert, commit.
  A transaction may be rolled back at any point; the number a rolled back insert
  had drawn from the sequence is lost for good.
 */
module AuditWriters {
  import opened Options
  import opened AuditRow
  import opened AuditChain

  // A recording in progress: its event and the identity given to its row.
  datatype Draft = Draft(id: string, traceId: Option<string>, event: AuditEvent)

  datatype Phase =
    | Waiting(draft: Draft)
    | Locked(draft: Draft)
    | HasPrev(draft: Draft, prev: string)
    | Inserted(row: Row)

  // `table` holds the committed rows in the order of their commits.
  datatype System = System(
    table: seq<Row>,
    nextSeq: int,
    holder: Option<nat>,
    writers: map<nat, Phase>,
    lost: set<int>)

  datatype Action =
    | Begin(w: nat, draft: Draft)
    | Lock(w: nat)
    | ReadPrev(w: nat)
    | Insert(w: nat)
    | Commit(w: nat)
    | Abort(w: nat)

  const INITIAL := System([], 1, None, map[], {})

  // `SELECT row_hash FROM audit_log ORDER BY seq DESC LIMIT 1`
  function Newest(t: seq<Row>): (row: Row)
    requires t != []
    ensures row in t && forall r :: r in t ==> r.seqNo <= row.seqNo
  {
    if |t| == 1 then t[0]
    else
      var best := Newest(t[1..]);
      assert t == [t[0]] + t[1..];
      if t[0].seqNo > best.seqNo then t[0] else best
  }

  function NewestHash(t: seq<Row>): string {
    if t == [] then GENESIS_HASH else Newest(t).rowHash
  }

  predicate Enabled(s: System, a: Action) {
    match a
    case Begin(w, _) => w !in s.writers
    case Lock(w) => w in s.writers && s.writers[w].Waiting? && s.holder == None
    case ReadPrev(w) => w in s.writers && s.writers[w].Locked?
    case Insert(w) => w in s.writers && s.writers[w].HasPrev?
    case Commit(w) => w in s.writers && s.writers[w].Inserted?
    case Abort(w) => w in s.writers
  }

  function Apply(p: Platform, s: System, a: Action): System
    requires Enabled(s, a)
  {
    match a
    case Begin(w, draft) => s.(writers := s.writers[w := Waiting(draft)])
    case Lock(w) => s.(holder := Some(w), writers := s.writers[w := Locked(s.writers[w].draft)])
    case ReadPrev(w) => s.(writers := s.writers[w := HasPrev(s.writers[w].draft, NewestHash(s.table))])
    case Insert(w) =>
      var HasPrev(d, prev) := s.writers[w];
      var row := NewRow(p, s.nextSeq, d.id, d.traceId, prev, d.event);
      s.(nextSeq := s.nextSeq + 1, writers := s.writers[w := Inserted(row)])
    case Commit(w) =>
      s.(table := s.table + [s.writers[w].row], holder := None, writers := s.writers - {w})
    case Abort(w) =>
      s.(holder := if s.writers[w].Waiting? then s.holder else None,
         writers := s.writers - {w},
         lost := if s.writers[w].Inserted? then s.lost + {s.writers[w].row.seqNo} else s.lost)
  }

  // A run: the actions are taken one after the other, each when it is enabled.
  ghost predicate IsRun(p: Platform, actions: seq<Action>)
    decreases |actions|
  {
    actions != [] ==>
      var before, a := actions[..|actions| - 1], actions[|actions| - 1];
      && IsRun(p, before)
      && Enabled(After(p, before), a)
      && (a.Begin? ==> Recordable(a.draft.event))
  }

  ghost function After(p: Platform, actions: seq<Action>): System
    decreases |actions|
  {
    if actions == [] then INITIAL
    else
      var s := After(p, actions[..|actions| - 1]);
      var a := actions[|actions| - 1];
      if Enabled(s, a) then Apply(p, s, a) else s
  }

  // ---------------------------------------------------------------- invariant

  ghost predicate InTable(t: seq<Row>, n: int) {
    exists i :: 0 <= i < |t| && t[i].seqNo == n
  }

  ghost predicate Pending(s: System, n: int) {
    exists w :: w in s.writers && s.writers[w].Inserted? && s.writers[w].row.seqNo == n
  }

  // Whoever is past the lock holds it.
  ghost predicate Exclusive(s: System) {
    forall w :: w in s.writers && !s.writers[w].Waiting? ==> s.holder == Some(w)
  }

  ghost predicate PhaseOk(p: Platform, s: System, ph: Phase) {
    match ph
    case Waiting(d) => Recordable(d.event)
    case Locked(d) => Recordable(d.event)
    case HasPrev(d, prev) => Recordable(d.event) && prev == PrevHash(s.table, |s.table|)
    case Inserted(row) =>
      && 1 <= row.seqNo == s.nextSeq - 1
      && row.rowHash == RowHash(p, PrevHash(s.table, |s.table|), row)
  }

  // Every number drawn so far is committed, about to be, or lost.
  ghost predicate NumbersKept(s: System) {
    && (forall n {:trigger InTable(s.table, n)} :: InTable(s.table, n) ==>
        1 <= n < s.nextSeq && n !in s.lost && !Pending(s, n))
    && (forall n :: n in s.lost ==> 1 <= n < s.nextSeq && !Pending(s, n))
    && (forall n {:trigger InTable(s.table, n)} :: 1 <= n < s.nextSeq ==>
        InTable(s.table, n) || n in s.lost || Pending(s, n))
  }

  ghost predicate Invariant(p: Platform, s: System) {
    && Chained(p, s.table)
    && s.nextSeq >= 1
    && Exclusive(s)
    && (forall w :: w in s.writers ==> PhaseOk(p, s, s.writers[w]))
    && NumbersKept(s)
  }

  lemma NewestIsLast(t: seq<Row>)
    requires Ordered(t) && t != []
    ensures Newest(t) == t[|t| - 1]
  {
    var i :| 0 <= i < |t| && t[i] == Newest(t);
    assert t[|t| - 1] in t;
  }

  lemma NewestIsTip(p: Platform, t: seq<Row>)
    requires Chained(p, t)
    ensures NewestHash(t) == PrevHash(t, |t|)
  {
    if t != [] {
      NewestIsLast(t);
    }
  }

  // ------------------------------------------------------- every step keeps it

  lemma QuietStep(p: Platform, s: System, w: nat, ph: Phase, s': System)
    requires Invariant(p, s) && PhaseOk(p, s, ph) && !ph.Inserted?
    requires w in s.writers ==> !s.writers[w].Inserted?
    requires s' == s.(writers := s.writers[w := ph], holder := s'.holder)
    requires Exclusive(s')
    ensures Invariant(p, s')
  {
    SamePending(s, s');
    forall v | v in s'.writers ensures PhaseOk(p, s', s'.writers[v]) {
      assert v != w ==> PhaseOk(p, s, s.writers[v]);
    }
  }

  lemma SamePending(s: System, s': System)
    requires s'.table == s.table && s'.lost == s.lost && s'.nextSeq == s.nextSeq && NumbersKept(s)
    requires forall v :: v in s'.writers && s'.writers[v].Inserted? ==> v in s.writers && s'.writers[v] == s.writers[v]
    requires forall v :: v in s.writers && s.writers[v].Inserted? ==> v in s'.writers && s'.writers[v] == s.writers[v]
    ensures NumbersKept(s')
  {
    assert forall n :: Pending(s', n) <==> Pending(s, n);
  }

  lemma InsertStep(p: Platform, s: System, w: nat)
    requires p.Valid() && Invariant(p, s) && Enabled(s, Insert(w))
    ensures Invariant(p, Apply(p, s, Insert(w)))
  {
    hide NewRow, RowHash, Recordable;
    var s' := Apply(p, s, Insert(w));
    var d := s.writers[w].draft;
    assert PhaseOk(p, s, s.writers[w]);
    NewRowNumber(p, s.nextSeq, d, s.writers[w].prev);
    StoredRowHashesAlike(p, s.nextSeq, d.id, d.traceId, s.writers[w].prev, d.event);
    forall v | v in s'.writers ensures PhaseOk(p, s', s'.writers[v]) {
      assert v != w ==> PhaseOk(p, s, s.writers[v]) && s.writers[v].Waiting?;
    }
    DrawnNumber(s, s', w);
  }

  lemma DrawnNumber(s: System, s': System, w: nat)
    requires NumbersKept(s) && s.nextSeq >= 1
    requires s'.table == s.table && s'.lost == s.lost && s'.nextSeq == s.nextSeq + 1
    requires forall v :: v in s.writers ==> !s.writers[v].Inserted?
    requires w in s'.writers && s'.writers[w].Inserted? && s'.writers[w].row.seqNo == s.nextSeq
    requires forall v :: v in s'.writers && s'.writers[v].Inserted? ==> v == w
    ensures NumbersKept(s')
  {
    assert forall n :: !Pending(s, n);
    assert forall n :: Pending(s', n) <==> n == s.nextSeq;
  }

  lemma NewRowNumber(p: Platform, n: int, d: Draft, prev: string)
    ensures NewRow(p, n, d.id, d.traceId, prev, d.event).seqNo == n
  {
  }

  lemma CommitStep(p: Platform, s: System, w: nat)
    requires Invariant(p, s) && Enabled(s, Commit(w))
    ensures Invariant(p, Apply(p, s, Commit(w)))
  {
    hide RowHash;
    var s' := Apply(p, s, Commit(w));
    var row := s.writers[w].row;
    assert PhaseOk(p, s, s.writers[w]) && Pending(s, row.seqNo);
    AppendKeepsChain(p, s, row);
    forall v | v in s'.writers ensures s'.writers[v].Waiting? && PhaseOk(p, s', s'.writers[v]) {
      assert PhaseOk(p, s, s.writers[v]);
    }
    assert forall n :: Pending(s, n) ==> n == row.seqNo;
    assert forall n :: !Pending(s', n);
    AppendedNumbers(s.table, row);
  }

  lemma AppendedNumbers(t: seq<Row>, row: Row)
    ensures forall n :: InTable(t + [row], n) <==> InTable(t, n) || n == row.seqNo
  {
    var u := t + [row];
    forall n ensures InTable(u, n) <==> InTable(t, n) || n == row.seqNo {
      if InTable(t, n) {
        var i :| 0 <= i < |t| && t[i].seqNo == n;
        assert u[i].seqNo == n;
      }
      assert u[|t|] == row;
    }
  }

  lemma AppendKeepsChain(p: Platform, s: System, row: Row)
    requires Invariant(p, s) && PhaseOk(p, s, Inserted(row)) && Pending(s, row.seqNo)
    ensures Chained(p, s.table + [row])
  {
    hide RowHash;
    var t, u := s.table, s.table + [row];
    forall i | 0 <= i < |t| ensures 1 <= t[i].seqNo < row.seqNo {
      assert InTable(t, t[i].seqNo);
    }
    forall i | 0 <= i < |u| ensures LinkedAt(p, u, i) {
      assert i < |t| ==> LinkedAt(p, t, i);
      assert PrevHash(u, i) == PrevHash(t, i);
    }
  }

  lemma AbortStep(p: Platform, s: System, w: nat)
    requires Invariant(p, s) && Enabled(s, Abort(w))
    ensures Invariant(p, Apply(p, s, Abort(w)))
  {
    hide RowHash, Recordable, Chained;
    var s' := Apply(p, s, Abort(w));
    assert PhaseOk(p, s, s.writers[w]);
    forall v | v in s'.writers ensures PhaseOk(p, s', s'.writers[v]) {
      assert PhaseOk(p, s, s.writers[v]);
    }
    if s.writers[w].Inserted? {
      LostNumber(s, s', w);
    } else {
      SamePending(s, s');
    }
  }

  lemma LostNumber(s: System, s': System, w: nat)
    requires NumbersKept(s) && w in s.writers && s.writers[w].Inserted?
    requires var n := s.writers[w].row.seqNo; 1 <= n < s.nextSeq && s'.lost == s.lost + {n}
    requires s'.table == s.table && s'.nextSeq == s.nextSeq
    requires forall v :: v in s.writers && s.writers[v].Inserted? ==> v == w
    requires forall v :: v in s'.writers ==> !s'.writers[v].Inserted?
    ensures NumbersKept(s')
  {
    var n := s.writers[w].row.seqNo;
    assert Pending(s, n);
    assert forall m :: Pending(s, m) ==> m == n;
    assert forall m :: !Pending(s', m);
  }

  lemma StepKeeps(p: Platform, s: System, a: Action)
    requires p.Valid() && Invariant(p, s) && Enabled(s, a) && (a.Begin? ==> Recordable(a.draft.event))
    ensures Invariant(p, Apply(p, s, a))
  {
    hide Recordable, Chained, NumbersKept;
    var s' := Apply(p, s, a);
    match a
    case Begin(w, draft) => QuietStep(p, s, w, Waiting(draft), s');
    case Lock(w) =>
      assert PhaseOk(p, s, s.writers[w]);
      QuietStep(p, s, w, s'.writers[w], s');
    case ReadPrev(w) =>
      assert PhaseOk(p, s, s.writers[w]);
      NewestIsTip(p, s.table);
      QuietStep(p, s, w, s'.writers[w], s');
    case Insert(w) => InsertStep(p, s, w);
    case Commit(w) => CommitStep(p, s, w);
    case Abort(w) => AbortStep(p, s, w);
  }

  /** Every reachable state keeps the invariant, whatever the interleaving. */
  lemma {:induction false} RunsKeep(p: Platform, actions: seq<Action>)
    requires p.Valid() && IsRun(p, actions)
    ensures Invariant(p, After(p, actions))
    decreases |actions|
  {
    if actions != [] {
      var before := actions[..|actions| - 1];
      RunsKeep(p, before);
      StepKeeps(p, After(p, before), actions[|actions| - 1]);
    }
  }

  // ------------------------------------------------------------- what it means

  lemma PendingIsLast(p: Platform, s: System, n: int)
    requires Invariant(p, s) && Pending(s, n)
    ensures n == s.nextSeq - 1
  {
    var w :| w in s.writers && s.writers[w].Inserted? && s.writers[w].row.seqNo == n;
    assert PhaseOk(p, s, s.writers[w]);
  }

  // The number before a row's own is committed, unless it was lost.
  lemma PredecessorInTable(p: Platform, actions: seq<Action>, i: nat)
    requires p.Valid() && IsRun(p, actions) && i < |After(p, actions).table|
    requires var n := After(p, actions).table[i].seqNo; n != 1 && n - 1 !in After(p, actions).lost
    ensures InTable(After(p, actions).table, After(p, actions).table[i].seqNo - 1)
  {
    hide RowHash;
    RunsKeep(p, actions);
    var s := After(p, actions);
    var n := s.table[i].seqNo;
    assert InTable(s.table, n);
    if Pending(s, n - 1) {
      PendingIsLast(p, s, n - 1);
    }
  }

  /**
    After any interleaving a committed row verifies exactly when it is number 1
    or the number before its own was not lost to a rolled back insert.
   */
  lemma RowVerifiesIff(p: Platform, actions: seq<Action>, i: nat)
    requires p.Valid() && IsRun(p, actions) && i < |After(p, actions).table|
    ensures var s := After(p, actions); var row := s.table[i];
            RowPasses(p, s.table, row) <==> row.seqNo == 1 || row.seqNo - 1 !in s.lost
  {
    hide RowHash;
    RunsKeep(p, actions);
    var s := After(p, actions);
    var t, n := s.table, s.table[i].seqNo;
    ChainedPasses(p, t, i);
    assert InTable(t, n);
    if n != 1 && n - 1 !in s.lost {
      PredecessorInTable(p, actions, i);
      var j :| 0 <= j < |t| && t[j].seqNo == n - 1;
      assert j == i - 1;
    }
    if i > 0 {
      assert InTable(t, t[i - 1].seqNo);
    }
  }

  /** If no insert was rolled back, the numbers are 1 to n in commit order and every page verifies. */
  lemma WithoutLossEveryPagePasses(p: Platform, actions: seq<Action>, page: seq<Row>)
    requires p.Valid() && IsRun(p, actions) && After(p, actions).lost == {}
    requires forall i :: 0 <= i < |page| ==> page[i] in After(p, actions).table
    ensures var s := After(p, actions); GapFree(s.table) && IsVerdict(p, s.table, page, Pass)
  {
    hide RowHash;
    RunsKeep(p, actions);
    var s := After(p, actions);
    NoGap(p, s, |s.table|);
    GoodChainPasses(p, s.table, page);
  }

  lemma {:induction false} NoGap(p: Platform, s: System, m: nat)
    requires Invariant(p, s) && s.lost == {} && m <= |s.table|
    ensures forall i :: 0 <= i < m ==> s.table[i].seqNo == i + 1
  {
    if m > 0 {
      NoGap(p, s, m - 1);
      var t, n := s.table, s.table[m - 1].seqNo;
      assert InTable(t, n);
      assert m > 1 ==> t[m - 2].seqNo == m - 1;
      assert n >= m;
      if Pending(s, m) {
        PendingIsLast(p, s, m);
      }
      assert InTable(t, m);
      var j :| 0 <= j < |t| && t[j].seqNo == m;
      assert j >= m - 1;
    }
  }

  // ------------------------------------------------------- verdicts are final

  // Commits and losses stay.
  ghost predicate Grown(s: System, s': System) {
    s.table <= s'.table && s.lost <= s'.lost
  }

  lemma {:induction false} LogGrows(p: Platform, before: seq<Action>, later: seq<Action>)
    requires IsRun(p, before + later)
    ensures IsRun(p, before) && Grown(After(p, before), After(p, before + later))
    decreases |later|
  {
    hide Apply, Enabled;
    if later == [] {
      assert before + later == before;
    } else {
      var n := |later| - 1;
      assert (before + later)[..|before + later| - 1] == before + later[..n];
      LogGrows(p, before, later[..n]);
      StepGrows(p, After(p, before + later[..n]), later[n]);
    }
  }

  lemma StepGrows(p: Platform, s: System, a: Action)
    requires Enabled(s, a)
    ensures Grown(s, Apply(p, s, a))
  {
  }

  /**
    A committed row keeps its verdict whatever is recorded later: one that follows a
    lost number never verifies, every other always does.
   */
  lemma VerdictIsFinal(p: Platform, before: seq<Action>, later: seq<Action>, i: nat)
    requires p.Valid() && IsRun(p, before + later) && i < |After(p, before).table|
    ensures var t, u := After(p, before).table, After(p, before + later).table;
            i < |u| && u[i] == t[i] && (RowPasses(p, u, u[i]) <==> RowPasses(p, t, t[i]))
  {
    hide RowHash, IsRun, After;
    LogGrows(p, before, later);
    RowVerifiesIff(p, before, i);
    RowVerifiesIff(p, before + later, i);
    var s, s' := After(p, before), After(p, before + later);
    var n := s.table[i].seqNo - 1;
    if n != 0 && n !in s.lost {
      PredecessorInTable(p, before, i);
      var j :| 0 <= j < |s.table| && s.table[j].seqNo == n;
      assert s'.table[j] == s.table[j];
      RunsKeep(p, before + later);
      assert InTable(s'.table, n);
    }
  }

  // The actions of one writer from its beginning to its insert.
  function UpToInsert(w: nat, draft: Draft): seq<Action> {
    [Begin(w, draft), Lock(w), ReadPrev(w), Insert(w)]
  }

  // The state after those actions, taken when nobody else records.
  function InsertedState(p: Platform, s: System, w: nat, d: Draft): System {
    System(s.table, s.nextSeq + 1, Some(w),
           map[w := Inserted(NewRow(p, s.nextSeq, d.id, d.traceId, NewestHash(s.table), d.event))], s.lost)
  }

  lemma Next(p: Platform, before: seq<Action>, a: Action)
    requires IsRun(p, before) && Enabled(After(p, before), a) && (a.Begin? ==> Recordable(a.draft.event))
    ensures IsRun(p, before + [a]) && After(p, before + [a]) == Apply(p, After(p, before), a)
  {
    assert (before + [a])[..|before|] == before;
  }

  lemma RunToInsert(p: Platform, before: seq<Action>, w: nat, draft: Draft)
    requires IsRun(p, before) && Recordable(draft.event)
    requires After(p, before).writers == map[] && After(p, before).holder == None
    ensures var actions := before + UpToInsert(w, draft);
            IsRun(p, actions) && After(p, actions) == InsertedState(p, After(p, before), w, draft)
  {
    hide IsRun, After, NewRow, Recordable;
    var a1 := before + [Begin(w, draft)];
    var a2 := a1 + [Lock(w)];
    var a3 := a2 + [ReadPrev(w)];
    Next(p, before, Begin(w, draft));
    Next(p, a1, Lock(w));
    Next(p, a2, ReadPrev(w));
    Next(p, a3, Insert(w));
    assert a3 + [Insert(w)] == before + UpToInsert(w, draft);
  }

  /**
    A rolled back insert is enough: a first writer that aborts after its insert, and a
    second that commits, leave one row, number 2, that does not verify though nobody
    touched it.
   */
  lemma RolledBackInsertBreaksNext(p: Platform, d: Draft, e: Draft)
    requires p.Valid() && Recordable(d.event) && Recordable(e.event)
    ensures var actions := UpToInsert(0, d) + [Abort(0)] + UpToInsert(1, e) + [Commit(1)];
            var s := After(p, actions);
            && IsRun(p, actions)
            && |s.table| == 1 && s.table[0].seqNo == 2 && s.lost == {1}
            && !RowPasses(p, s.table, s.table[0])
  {
    hide IsRun, After, NewRow, Recordable, RowPasses;
    NothingYet(p);
    RunToInsert(p, [], 0, d);
    var a1 := UpToInsert(0, d);
    assert [] + a1 == a1;
    Next(p, a1, Abort(0));
    NewRowNumber(p, 1, d, NewestHash([]));
    RunToInsert(p, a1 + [Abort(0)], 1, e);
    var a2 := a1 + [Abort(0)] + UpToInsert(1, e);
    NewRowNumber(p, 2, e, NewestHash([]));
    Next(p, a2, Commit(1));
    RowVerifiesIff(p, a2 + [Commit(1)], 0);
  }

  lemma NothingYet(p: Platform)
    ensures IsRun(p, []) && After(p, []) == INITIAL
  {
  }

  // ------------------------------------------------------------ without the lock

  // As if no one held the lock.
  function Unlocked(s: System): System {
    s.(holder := None)
  }

  // The actions taken one after the other from `start`, the guard of the lock dropped.
  ghost predicate IsUnlockedRun(p: Platform, start: System, actions: seq<Action>)
    decreases |actions|
  {
    actions != [] ==>
      var before, a := actions[..|actions| - 1], actions[|actions| - 1];
      && IsUnlockedRun(p, start, before)
      && Enabled(Unlocked(AfterUnlocked(p, start, before)), a)
      && (a.Begin? ==> Recordable(a.draft.event))
  }

  ghost function AfterUnlocked(p: Platform, start: System, actions: seq<Action>): System
    decreases |actions|
  {
    if actions == [] then start
    else
      var s := Unlocked(AfterUnlocked(p, start, actions[..|actions| - 1]));
      var a := actions[|actions| - 1];
      if Enabled(s, a) then Apply(p, s, a) else s
  }

  lemma NextUnlocked(p: Platform, start: System, before: seq<Action>, s: System, a: Action, s': System)
    requires IsUnlockedRun(p, start, before) && AfterUnlocked(p, start, before) == s
    requires Enabled(Unlocked(s), a) && (a.Begin? ==> Recordable(a.draft.event)) && Apply(p, Unlocked(s), a) == s'
    ensures IsUnlockedRun(p, start, before + [a]) && AfterUnlocked(p, start, before + [a]) == s'
  {
    assert (before + [a])[..|before|] == before;
  }

  // Two writers that both read before either inserts.
  function Locks(v: nat, d: Draft, w: nat, e: Draft): seq<Action> {
    [Begin(v, d), Begin(w, e), Lock(v), Lock(w)]
  }

  function Reads(v: nat, d: Draft, w: nat, e: Draft): seq<Action> {
    Locks(v, d, w, e) + [ReadPrev(v), ReadPrev(w)]
  }

  function Writes(v: nat, w: nat): seq<Action> {
    [Insert(v), Insert(w)] + [Commit(v), Commit(w)]
  }

  lemma BothLock(p: Platform, s: System, v: nat, d: Draft, w: nat, e: Draft)
    requires s.writers == map[] && v != w && Recordable(d.event) && Recordable(e.event)
    ensures IsUnlockedRun(p, s, Locks(v, d, w, e))
    ensures AfterUnlocked(p, s, Locks(v, d, w, e)) ==
              s.(holder := Some(w), writers := map[v := Locked(d), w := Locked(e)])
  {
    hide IsUnlockedRun, AfterUnlocked, Recordable, NewestHash, NewRow;
    var s1 := s.(holder := None, writers := map[v := Waiting(d)]);
    var s2 := s1.(writers := map[v := Waiting(d), w := Waiting(e)]);
    var s3 := s2.(holder := Some(v), writers := map[v := Locked(d), w := Waiting(e)]);
    var s4 := s3.(holder := Some(w), writers := map[v := Locked(d), w := Locked(e)]);
    NoneTaken(p, s);
    var a1 := [] + [Begin(v, d)];
    var a2 := a1 + [Begin(w, e)];
    var a3 := a2 + [Lock(v)];
    NextUnlocked(p, s, [], s, Begin(v, d), s1);
    NextUnlocked(p, s, a1, s1, Begin(w, e), s2);
    NextUnlocked(p, s, a2, s2, Lock(v), s3);
    NextUnlocked(p, s, a3, s3, Lock(w), s4);
    assert a3 + [Lock(w)] == Locks(v, d, w, e);
  }

  lemma BothRead(p: Platform, s: System, v: nat, d: Draft, w: nat, e: Draft)
    requires s.writers == map[] && v != w && Recordable(d.event) && Recordable(e.event)
    ensures var prev := NewestHash(s.table);
            && IsUnlockedRun(p, s, Reads(v, d, w, e))
            && AfterUnlocked(p, s, Reads(v, d, w, e)) ==
                 s.(holder := None, writers := map[v := HasPrev(d, prev), w := HasPrev(e, prev)])
  {
    hide IsUnlockedRun, AfterUnlocked, Recordable, NewestHash, NewRow, Locks;
    var prev := NewestHash(s.table);
    var s4 := s.(holder := Some(w), writers := map[v := Locked(d), w := Locked(e)]);
    var s5 := s.(holder := None, writers := map[v := HasPrev(d, prev), w := Locked(e)]);
    var s6 := s5.(writers := map[v := HasPrev(d, prev), w := HasPrev(e, prev)]);
    BothLock(p, s, v, d, w, e);
    var a4 := Locks(v, d, w, e);
    var a5 := a4 + [ReadPrev(v)];
    NextUnlocked(p, s, a4, s4, ReadPrev(v), s5);
    NextUnlocked(p, s, a5, s5, ReadPrev(w), s6);
    assert a5 + [ReadPrev(w)] == Reads(v, d, w, e);
  }

  lemma NoneTaken(p: Platform, s: System)
    ensures IsUnlockedRun(p, s, []) && AfterUnlocked(p, s, []) == s
  {
  }

  lemma BothInsert(p: Platform, start: System, before: seq<Action>, s: System, v: nat, d: Draft, w: nat, e: Draft,
                   prev: string)
    requires IsUnlockedRun(p, start, before) && AfterUnlocked(p, start, before) == s
    requires v != w && s.writers == map[v := HasPrev(d, prev), w := HasPrev(e, prev)]
    ensures var actions, n := before + [Insert(v), Insert(w)], s.nextSeq;
            && IsUnlockedRun(p, start, actions)
            && AfterUnlocked(p, start, actions) ==
                 s.(nextSeq := n + 2, holder := None,
                    writers := map[v := Inserted(NewRow(p, n, d.id, d.traceId, prev, d.event)),
                                   w := Inserted(NewRow(p, n + 1, e.id, e.traceId, prev, e.event))])
  {
    hide IsUnlockedRun, AfterUnlocked, NewRow, NewestHash, Recordable;
    var n := s.nextSeq;
    var r := NewRow(p, n, d.id, d.traceId, prev, d.event);
    var r' := NewRow(p, n + 1, e.id, e.traceId, prev, e.event);
    var s1 := s.(nextSeq := n + 1, holder := None, writers := map[v := Inserted(r), w := HasPrev(e, prev)]);
    var s2 := s1.(nextSeq := n + 2, writers := map[v := Inserted(r), w := Inserted(r')]);
    var a1 := before + [Insert(v)];
    NextUnlocked(p, start, before, s, Insert(v), s1);
    NextUnlocked(p, start, a1, s1, Insert(w), s2);
    assert a1 + [Insert(w)] == before + [Insert(v), Insert(w)];
  }

  lemma BothWrite(p: Platform, start: System, before: seq<Action>, s: System, v: nat, d: Draft, w: nat, e: Draft,
                  prev: string)
    requires IsUnlockedRun(p, start, before) && AfterUnlocked(p, start, before) == s
    requires v != w && s.writers == map[v := HasPrev(d, prev), w := HasPrev(e, prev)]
    ensures var actions := before + Writes(v, w);
            && IsUnlockedRun(p, start, actions)
            && AfterUnlocked(p, start, actions).table ==
                 s.table + [NewRow(p, s.nextSeq, d.id, d.traceId, prev, d.event),
                            NewRow(p, s.nextSeq + 1, e.id, e.traceId, prev, e.event)]
  {
    hide IsUnlockedRun, AfterUnlocked, NewRow, NewestHash, Recordable;
    BothInsert(p, start, before, s, v, d, w, e, prev);
    var a2 := before + [Insert(v), Insert(w)];
    var s2 := AfterUnlocked(p, start, a2);
    var r, r' := s2.writers[v].row, s2.writers[w].row;
    var s3 := s2.(table := s.table + [r], writers := map[w := Inserted(r')]);
    var s4 := s3.(table := s.table + [r] + [r'], writers := map[]);
    var a3 := a2 + [Commit(v)];
    NextUnlocked(p, start, a2, s2, Commit(v), s3);
    NextUnlocked(p, start, a3, s3, Commit(w), s4);
    assert a3 + [Commit(w)] == before + Writes(v, w);
    assert s4.table == s.table + [r, r'];
  }

  lemma SharedPredecessorFails(p: Platform, t: seq<Row>, r: Row, s: Row, prev: string)
    requires Ordered(t + [r, s]) && 1 <= r.seqNo == s.seqNo - 1
    requires s.rowHash == RowHash(p, prev, s)
    ensures || !RowPasses(p, t + [r, s], s) || r.rowHash == prev
            || Collide(p, RowPayload(p, r.rowHash, s), RowPayload(p, prev, s))
  {
    hide RowPayload;
    var u := t + [r, s];
    assert u[|t|] == r;
    HashAtFinds(u, |t|);
    if r.rowHash != prev {
      PrevMatters(p, r.rowHash, prev, s);
    }
  }

  /**
    The lock is what keeps the chain linear. Without it, after any run of the locked
    writers, two more that both read before either inserts leave rows with one
    predecessor, and the second does not verify (or the digest gave the first row its
    own predecessor's hash, or collides).
   */
  lemma WithoutLockChainBreaks(p: Platform, before: seq<Action>, v: nat, d: Draft, w: nat, e: Draft)
    requires p.Valid() && IsRun(p, before) && After(p, before).writers == map[]
    requires v != w && Recordable(d.event) && Recordable(e.event)
    ensures var s := After(p, before);
            var actions := Reads(v, d, w, e) + Writes(v, w);
            var u := AfterUnlocked(p, s, actions).table;
            && IsUnlockedRun(p, s, actions)
            && |u| == |s.table| + 2 && s.table == u[..|s.table|]
            && var r, r', prev := u[|s.table|], u[|s.table| + 1], NewestHash(s.table);
               || !RowPasses(p, u, r') || r.rowHash == prev
               || Collide(p, RowPayload(p, r.rowHash, r'), RowPayload(p, prev, r'))
  {
    hide IsRun, After, IsUnlockedRun, AfterUnlocked, Recordable, RowPasses, RowPayload, RowHash, NewRow;
    var s := After(p, before);
    var prev := NewestHash(s.table);
    BothRead(p, s, v, d, w, e);
    var s6 := AfterUnlocked(p, s, Reads(v, d, w, e));
    BothWrite(p, s, Reads(v, d, w, e), s6, v, d, w, e, prev);
    var r := NewRow(p, s.nextSeq, d.id, d.traceId, prev, d.event);
    var r' := NewRow(p, s.nextSeq + 1, e.id, e.traceId, prev, e.event);
    NewRowNumber(p, s.nextSeq, d, prev);
    NewRowNumber(p, s.nextSeq + 1, e, prev);
    StoredRowHashesAlike(p, s.nextSeq + 1, e.id, e.traceId, prev, e.event);
    RunsKeep(p, before);
    NumbersBelow(p, s);
    SharedPredecessorFails(p, s.table, r, r', prev);
  }

  lemma NumbersBelow(p: Platform, s: System)
    requires Invariant(p, s)
    ensures Ordered(s.table) && forall i :: 0 <= i < |s.table| ==> s.table[i].seqNo < s.nextSeq
  {
    forall i | 0 <= i < |s.table| ensures s.table[i].seqNo < s.nextSeq {
      assert InTable(s.table, s.table[i].seqNo);
    }
  }

  // --------------------------------------------------------- where rows come from

  // The recordings begun in a run.
  ghost function Begun(actions: seq<Action>): set<Draft> {
    set k | 0 <= k < |actions| && actions[k].Begin? :: actions[k].draft
  }

  ghost predicate IsRowOf(p: Platform, row: Row, d: Draft, prev: string) {
    row == NewRow(p, row.seqNo, d.id, d.traceId, prev, d.event)
  }

  ghost predicate RowBegun(p: Platform, ds: set<Draft>, row: Row, prev: string) {
    exists d :: d in ds && IsRowOf(p, row, d, prev)
  }

  ghost predicate PhaseBegun(p: Platform, ds: set<Draft>, s: System, ph: Phase) {
    match ph
    case Waiting(d) => d in ds
    case Locked(d) => d in ds
    case HasPrev(d, _) => d in ds
    case Inserted(row) => RowBegun(p, ds, row, PrevHash(s.table, |s.table|))
  }

  ghost predicate Provenance(p: Platform, ds: set<Draft>, s: System) {
    && (forall w :: w in s.writers ==> PhaseBegun(p, ds, s, s.writers[w]))
    && (forall i {:trigger RowAtBegun(p, ds, s.table, i)} :: 0 <= i < |s.table| ==> RowAtBegun(p, ds, s.table, i))
  }

  ghost predicate RowAtBegun(p: Platform, ds: set<Draft>, t: seq<Row>, i: nat)
    requires i < |t|
  {
    RowBegun(p, ds, t[i], PrevHash(t, i))
  }

  lemma ProvenanceStep(p: Platform, ds: set<Draft>, s: System, a: Action, ds': set<Draft>)
    requires p.Valid() && Invariant(p, s) && Provenance(p, ds, s) && Enabled(s, a)
    requires ds <= ds' && (a.Begin? ==> a.draft in ds')
    ensures Provenance(p, ds', Apply(p, s, a))
  {
    hide Apply, Enabled, Invariant, PhaseBegun, RowAtBegun;
    var s' := Apply(p, s, a);
    forall w | w in s'.writers ensures PhaseBegun(p, ds', s', s'.writers[w]) {
      PhaseProvenance(p, ds, s, a, ds', w);
    }
    forall i | 0 <= i < |s'.table| ensures RowAtBegun(p, ds', s'.table, i) {
      RowProvenance(p, ds, s, a, ds', i);
    }
  }

  lemma PhaseProvenance(p: Platform, ds: set<Draft>, s: System, a: Action, ds': set<Draft>, w: nat)
    requires Invariant(p, s) && Provenance(p, ds, s) && Enabled(s, a) && w in Apply(p, s, a).writers
    requires ds <= ds' && (a.Begin? ==> a.draft in ds')
    ensures PhaseBegun(p, ds', Apply(p, s, a), Apply(p, s, a).writers[w])
  {
    hide NewRow, RowHash, Chained, NumbersKept;
    var s' := Apply(p, s, a);
    if w in s.writers {
      assert PhaseOk(p, s, s.writers[w]) && PhaseBegun(p, ds, s, s.writers[w]);
      if a == Insert(w) {
        var HasPrev(d, prev) := s.writers[w];
        NewRowNumber(p, s.nextSeq, d, prev);
        assert IsRowOf(p, s'.writers[w].row, d, PrevHash(s.table, |s.table|));
      }
    }
  }

  lemma RowProvenance(p: Platform, ds: set<Draft>, s: System, a: Action, ds': set<Draft>, i: nat)
    requires Provenance(p, ds, s) && Enabled(s, a) && i < |Apply(p, s, a).table| && ds <= ds'
    ensures RowAtBegun(p, ds', Apply(p, s, a).table, i)
  {
    hide NewRow;
    var t' := Apply(p, s, a).table;
    assert PrevHash(t', i) == PrevHash(s.table, i);
    if i < |s.table| {
      assert RowAtBegun(p, ds, s.table, i);
    } else {
      assert PhaseBegun(p, ds, s, s.writers[a.w]);
    }
  }

  /** Every committed row is the row of a recording begun in the run, hashed off the row committed before it. */
  lemma {:induction false} RowsComeFromDrafts(p: Platform, actions: seq<Action>)
    requires p.Valid() && IsRun(p, actions)
    ensures Provenance(p, Begun(actions), After(p, actions))
    decreases |actions|
  {
    if actions != [] {
      var before, a := actions[..|actions| - 1], actions[|actions| - 1];
      RowsComeFromDrafts(p, before);
      RunsKeep(p, before);
      assert Begun(before) <= Begun(actions) by {
        forall d | d in Begun(before) ensures d in Begun(actions) {
          var k :| 0 <= k < |before| && before[k].Begin? && before[k].draft == d;
          assert actions[k] == before[k];
        }
      }
      ProvenanceStep(p, Begun(before), After(p, before), a, Begun(actions));
    }
  }

  // Row i reports a recording begun in the run, and is hashed off the row committed before it.
  ghost predicate ReportsDraft(p: Platform, ds: set<Draft>, t: seq<Row>, i: nat)
    requires i < |t|
  {
    && t[i].rowHash == RowHash(p, PrevHash(t, i), t[i])
    && exists d :: d in ds && Recordable(d.event) && Reports(t[i], d.id, d.traceId, d.event)
  }

  lemma {:induction false} BegunIsRecordable(p: Platform, actions: seq<Action>, d: Draft)
    requires IsRun(p, actions) && d in Begun(actions)
    ensures Recordable(d.event)
    decreases |actions|
  {
    hide Recordable, Enabled, After;
    var k :| 0 <= k < |actions| && actions[k].Begin? && actions[k].draft == d;
    if k < |actions| - 1 {
      assert actions[..|actions| - 1][k] == actions[k];
      BegunIsRecordable(p, actions[..|actions| - 1], d);
    }
  }

  /** In every column, each committed row says what a recording begun in the run said. */
  lemma RowsReportDrafts(p: Platform, actions: seq<Action>, i: nat)
    requires p.Valid() && IsRun(p, actions) && i < |After(p, actions).table|
    ensures ReportsDraft(p, Begun(actions), After(p, actions).table, i)
  {
    hide NewRow, RowHash, Reports, IsRun, After, Begun, Recordable;
    RowsComeFromDrafts(p, actions);
    var t := After(p, actions).table;
    assert RowAtBegun(p, Begun(actions), t, i);
    var d :| d in Begun(actions) && IsRowOf(p, t[i], d, PrevHash(t, i));
    BegunIsRecordable(p, actions, d);
    NewRowReports(p, t[i].seqNo, d.id, d.traceId, PrevHash(t, i), d.event);
    StoredRowHashesAlike(p, t[i].seqNo, d.id, d.traceId, PrevHash(t, i), d.event);
  }

  // A recording of a registered tool, with a uuid for its row and no brace in its agent's id.
  ghost predicate GatewayDraft(d: Draft) {
    |d.id| == 36 && '{' !in d.event.agentId && d.event.toolName in TOOLS && Recordable(d.event)
  }

  lemma RowsAreWellFormed(p: Platform, actions: seq<Action>, i: nat)
    requires p.Valid() && IsRun(p, actions) && i < |After(p, actions).table|
    requires forall d :: d in Begun(actions) ==> GatewayDraft(d)
    ensures WellFormed(After(p, actions).table[i])
  {
    hide NewRow, WellFormed;
    RowsComeFromDrafts(p, actions);
    var t := After(p, actions).table;
    assert RowAtBegun(p, Begun(actions), t, i);
    var d :| d in Begun(actions) && IsRowOf(p, t[i], d, PrevHash(t, i));
    NewRowWellFormed(p, t[i].seqNo, d.id, d.traceId, PrevHash(t, i), d.event);
  }

  /**
    Two runs that end in the same newest hash recorded the same history, whatever
    their interleavings and rollbacks: unless the digest itself was broken at one
    of these rows, the tables have equal length and agree on every covered field.
   */
  lemma SameHeadSameHistory(p: Platform, run1: seq<Action>, run2: seq<Action>)
    requires p.Valid() && IsRun(p, run1) && IsRun(p, run2)
    requires forall d :: d in Begun(run1) + Begun(run2) ==> GatewayDraft(d)
    requires After(p, run1).table != [] && After(p, run2).table != []
    requires NewestHash(After(p, run1).table) == NewestHash(After(p, run2).table)
    ensures var t, u := After(p, run1).table, After(p, run2).table;
            SameHistory(t, u) || Broken(p, t, u)
  {
    hide *;
    RunIsChained(p, run1);
    RunIsChained(p, run2);
    HeadCommitsFields(p, After(p, run1).table, After(p, run2).table);
  }

  lemma RunIsChained(p: Platform, run: seq<Action>)
    requires p.Valid() && IsRun(p, run) && forall d :: d in Begun(run) ==> GatewayDraft(d)
    ensures var t := After(p, run).table;
            && Chained(p, t)
            && (forall i :: 0 <= i < |t| ==> WellFormed(t[i]))
            && (t != [] ==> NewestHash(t) == t[|t| - 1].rowHash)
  {
    hide WellFormed, GatewayDraft, Chained, NumbersKept, PhaseOk, Exclusive, IsRun, After;
    var t := After(p, run).table;
    RunsKeep(p, run);
    NewestIsTip(p, t);
    forall i | 0 <= i < |t| ensures WellFormed(t[i]) {
      RowsAreWellFormed(p, run, i);
    }
  }

  /**
    The newest hash, kept elsewhere, anchors the history: against the table of a run of
    writers, any other gap-free table whose rows all verify and that ends in the same hash
    has the same length and texts; so every row of it that is legible agrees with the
    recorded one but for the cut, and every row as the gateway writes them in every
    covered field; unless the digest was broken at one of these rows.
   */
  lemma HeadAnchorsHistory(p: Platform, run: seq<Action>, u: seq<Row>)
    requires p.Valid() && IsRun(p, run) && forall d :: d in Begun(run) ==> GatewayDraft(d)
    requires GapFree(u) && IsVerdict(p, u, u, Pass)
    requires After(p, run).table != [] && u != []
    requires NewestHash(After(p, run).table) == u[|u| - 1].rowHash
    ensures var t := After(p, run).table;
            || Broken(p, t, u)
            || (&& SameTexts(p, t, u)
                && forall i :: 0 <= i < |u| ==>
                     && (Legible(u[i]) ==> SameButCut(t[i], u[i]))
                     && (WellFormed(u[i]) ==> SameCovered(t[i], u[i])))
  {
    hide *;
    hide Legible;
    var t := After(p, run).table;
    RunIsChained(p, run);
    PassesIffChained(p, u);
    HeadCommits(p, t, u);
    if SameTexts(p, t, u) {
      SameLength(p, t, u);
      forall i | 0 <= i < |u|
        ensures Legible(u[i]) ==> SameButCut(t[i], u[i])
        ensures WellFormed(u[i]) ==> SameCovered(t[i], u[i])
      {
        SameTextSays(p, t, u, i);
        WellFormedIsLegible(t[i]);
      }
    }
  }

  lemma SameLength(p: Platform, t: seq<Row>, u: seq<Row>)
    requires SameTexts(p, t, u)
    ensures |t| == |u|
  {
  }
}
