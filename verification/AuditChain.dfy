/**
  The hash chain over a whole table: what a row must satisfy to verify, what
  editing and deleting rows does to the verdicts, and what a head hash commits to.
 */
module AuditChain {
  import opened Options
  import opened AuditRow

  // ------------------------------------------------------------------- tables

  // The table in primary-key order.
  ghost predicate Ordered(t: seq<Row>) {
    forall i, j :: 0 <= i < j < |t| ==> t[i].seqNo < t[j].seqNo
  }

  // `SELECT row_hash FROM audit_log WHERE seq = n`
  function HashAt(t: seq<Row>, n: int): Option<string> {
    if t == [] then None
    else if t[0].seqNo == n then Some(t[0].rowHash)
    else HashAt(t[1..], n)
  }

  lemma {:induction false} HashAtFinds(t: seq<Row>, i: nat)
    requires Ordered(t) && i < |t|
    ensures HashAt(t, t[i].seqNo) == Some(t[i].rowHash)
  {
    if i > 0 {
      HashAtFinds(t[1..], i - 1);
    }
  }

  lemma {:induction false} HashAtMisses(t: seq<Row>, n: int)
    requires forall i :: 0 <= i < |t| ==> t[i].seqNo != n
    ensures HashAt(t, n) == None
  {
    if t != [] {
      HashAtMisses(t[1..], n);
    }
  }

  // The hash a row with number `n` must follow: GENESIS for the first, else the
  // hash stored in row n - 1, which may be missing.
  function Predecessor(t: seq<Row>, n: int): Option<string> {
    if n == 1 then Some(GENESIS_HASH) else HashAt(t, n - 1)
  }

  // The check `verify_rows` makes of one row against the table.
  predicate RowPasses(p: Platform, t: seq<Row>, row: Row) {
    match Predecessor(t, row.seqNo)
    case None => false
    case Some(prev) => RowHash(p, prev, row) == row.rowHash
  }

  datatype Verdict = Pass | FailAt(n: int)

  // The verdict on a page, in whatever order its rows come: the least failing number.
  ghost predicate IsVerdict(p: Platform, t: seq<Row>, page: seq<Row>, v: Verdict) {
    match v
    case Pass => forall i :: 0 <= i < |page| ==> RowPasses(p, t, page[i])
    case FailAt(n) =>
      && (exists i :: 0 <= i < |page| && page[i].seqNo == n && !RowPasses(p, t, page[i]))
      && (forall i :: 0 <= i < |page| && page[i].seqNo < n ==> RowPasses(p, t, page[i]))
  }

  // A page answers with one verdict only.
  lemma VerdictUnique(p: Platform, t: seq<Row>, page: seq<Row>, v: Verdict, w: Verdict)
    requires IsVerdict(p, t, page, v) && IsVerdict(p, t, page, w)
    ensures v == w
  {
    if v.FailAt? {
      var i :| 0 <= i < |page| && page[i].seqNo == v.n && !RowPasses(p, t, page[i]);
      assert w.FailAt?;
    }
  }

  // ------------------------------------------------------------------- chains

  function PrevHash(t: seq<Row>, i: nat): string
    requires i <= |t|
  {
    if i == 0 then GENESIS_HASH else t[i - 1].rowHash
  }

  // Each row's hash chains off the row before it in the table, numbers may skip.
  ghost predicate Chained(p: Platform, t: seq<Row>) {
    && Ordered(t)
    && (t != [] ==> t[0].seqNo >= 1)
    && forall i {:trigger LinkedAt(p, t, i)} :: 0 <= i < |t| ==> LinkedAt(p, t, i)
  }

  // Row i stores the hash of its fields chained off the row before it.
  ghost predicate LinkedAt(p: Platform, t: seq<Row>, i: nat)
    requires i < |t|
  {
    t[i].rowHash == RowHash(p, PrevHash(t, i), t[i])
  }

  ghost predicate GapFree(t: seq<Row>) {
    forall i :: 0 <= i < |t| ==> t[i].seqNo == i + 1
  }

  // The predecessor looked up for row i is the row before it, or missing.
  lemma ChainedPredecessor(p: Platform, t: seq<Row>, i: nat)
    requires Chained(p, t) && i < |t|
    ensures Predecessor(t, t[i].seqNo) ==
              if t[i].seqNo == 1 || (i > 0 && t[i - 1].seqNo == t[i].seqNo - 1) then Some(PrevHash(t, i)) else None
  {
    hide RowPayload;
    var n := t[i].seqNo;
    assert i > 0 ==> t[0].seqNo < t[i].seqNo;
    if n == 1 {
    } else if i > 0 && t[i - 1].seqNo == n - 1 {
      HashAtFinds(t, i - 1);
    } else {
      forall j | 0 <= j < |t| ensures t[j].seqNo != n - 1 {
        assert j < i - 1 ==> t[j].seqNo < t[i - 1].seqNo;
        assert i - 1 >= 0 ==> t[i - 1].seqNo < n;
        assert i < j ==> n < t[j].seqNo;
      }
      HashAtMisses(t, n - 1);
    }
  }

  // Row i verifies exactly when it is number 1 or number - 1 is in the table.
  lemma ChainedPasses(p: Platform, t: seq<Row>, i: nat)
    requires Chained(p, t) && i < |t|
    ensures RowPasses(p, t, t[i]) <==> t[i].seqNo == 1 || (i > 0 && t[i - 1].seqNo == t[i].seqNo - 1)
  {
    hide RowPayload;
    assert LinkedAt(p, t, i);
    ChainedPredecessor(p, t, i);
  }

  /** Every page of a gap-free chain passes, whatever its order. */
  lemma GoodChainPasses(p: Platform, t: seq<Row>, page: seq<Row>)
    requires Chained(p, t) && GapFree(t)
    requires forall i :: 0 <= i < |page| ==> page[i] in t
    ensures IsVerdict(p, t, page, Pass)
  {
    hide RowPayload;
    forall i | 0 <= i < |page| ensures RowPasses(p, t, page[i]) {
      assert page[i] in t;
      var j :| 0 <= j < |t| && t[j] == page[i];
      ChainedPasses(p, t, j);
    }
  }

  // ---------------------------------------------------------------- tampering

  // Two different texts with one digest.
  ghost predicate Collide(p: Platform, text1: string, text2: string) {
    text1 != text2 && p.sha256(text1) == p.sha256(text2)
  }

  lemma {:induction false} UpdatedHashAt(t: seq<Row>, k: nat, row: Row, n: int)
    requires Ordered(t) && k < |t| && row.seqNo == t[k].seqNo
    ensures HashAt(t[k := row], n) == if n == row.seqNo then Some(row.rowHash) else HashAt(t, n)
  {
    var u := t[k := row];
    if k == 0 {
      assert u[1..] == t[1..];
    } else {
      assert u[1..] == t[1..][k - 1 := row];
      UpdatedHashAt(t[1..], k - 1, row, n);
    }
  }

  /**
    Putting any row in the place of row k of a chain: the rows other than k and
    k + 1 keep their verdicts; row k verifies exactly when it did and the stored
    hash is that of its own fields; row k + 1 exactly when it did and row k's
    stored hash is unchanged. (Or else the digest collides on the two texts of
    row k + 1.)
   */
  lemma ReplacedRow(p: Platform, t: seq<Row>, k: nat, row: Row, j: nat)
    requires p.Valid() && Chained(p, t) && k < |t| && row.seqNo == t[k].seqNo && j < |t|
    ensures var u := t[k := row];
            && (j != k && j != k + 1 ==> (RowPasses(p, u, u[j]) <==> RowPasses(p, t, t[j])))
            && (j == k ==>
                  (RowPasses(p, u, u[j]) <==> RowPasses(p, t, t[k]) && row.rowHash == RowHash(p, PrevHash(t, k), row)))
            && (j == k + 1 ==>
                  || (RowPasses(p, u, u[j]) <==> RowPasses(p, t, t[j]) && row.rowHash == t[k].rowHash)
                  || Collide(p, RowPayload(p, row.rowHash, t[j]), RowPayload(p, t[k].rowHash, t[j])))
  {
    hide RowPayload;
    UpdatedHashAt(t, k, row, t[j].seqNo - 1);
    ChainedPasses(p, t, j);
    ChainedPredecessor(p, t, j);
    assert LinkedAt(p, t, j);
    assert t[0].seqNo >= 1 && (j > 0 ==> t[0].seqNo < t[j].seqNo);
    if j > 0 {
      RowsApart(t, k, j - 1);
    }
    if j == k + 1 && row.rowHash != t[k].rowHash {
      PrevMatters(p, row.rowHash, t[k].rowHash, t[j]);
    }
  }

  lemma PrevMatters(p: Platform, prev1: string, prev2: string, row: Row)
    requires prev1 != prev2
    ensures RowPayload(p, prev1, row) != RowPayload(p, prev2, row)
  {
    var rest := row.id + ((row.agentId + row.toolName) + JsonPart(row.args, Result(row), p.iso(row.createdAt)));
    PayloadParts(prev1, row.id, row.agentId, row.toolName, row.args, Result(row), p.iso(row.createdAt));
    PayloadParts(prev2, row.id, row.agentId, row.toolName, row.args, Result(row), p.iso(row.createdAt));
    if prev1 + rest == prev2 + rest {
      assert |prev1 + rest| == |prev1| + |rest| && |prev2 + rest| == |prev2| + |rest|;
      Front(prev1, rest, prev2, rest);
    }
  }

  lemma PrevHashLength(p: Platform, t: seq<Row>, i: nat)
    requires p.Valid() && Chained(p, t) && i <= |t|
    ensures |PrevHash(t, i)| == 64
  {
    hide RowPayload;
    assert i > 0 ==> LinkedAt(p, t, i - 1);
  }

  // The page's rows verify before the edit.
  ghost predicate PassedBefore(p: Platform, t: seq<Row>, u: seq<Row>, page: seq<Row>)
    requires |u| == |t|
  {
    && (forall i :: 0 <= i < |page| ==> page[i] in u)
    && forall j :: 0 <= j < |t| && u[j] in page ==> RowPasses(p, t, t[j])
  }

  /**
    The verdict after any row whatever took the place of row k, on a page that passed
    before: it fails at k if k is in it and the stored hash is not that of the row's own
    fields; else at the next row if that is in it and the stored hash changed; else it passes.
   */
  lemma ReplacedPage(p: Platform, t: seq<Row>, k: nat, row: Row, page: seq<Row>)
    requires p.Valid() && Chained(p, t) && k < |t| && row.seqNo == t[k].seqNo
    requires PassedBefore(p, t, t[k := row], page)
    ensures || (k + 1 < |t| && Collide(p, RowPayload(p, row.rowHash, t[k + 1]), RowPayload(p, t[k].rowHash, t[k + 1])))
            || IsVerdict(p, t[k := row], page,
                 if row in page && row.rowHash != RowHash(p, PrevHash(t, k), row) then FailAt(row.seqNo)
                 else if k + 1 < |t| && t[k + 1] in page && row.rowHash != t[k].rowHash then FailAt(t[k + 1].seqNo)
                 else Pass)
  {
    hide RowPayload, RowHash, RowPasses;
    var u := t[k := row];
    if !(k + 1 < |t| && Collide(p, RowPayload(p, row.rowHash, t[k + 1]), RowPayload(p, t[k].rowHash, t[k + 1]))) {
      forall i | 0 <= i < |page|
        ensures page[i].seqNo == row.seqNo ==>
                  page[i] == row && (RowPasses(p, u, row) <==> row.rowHash == RowHash(p, PrevHash(t, k), row))
        ensures page[i].seqNo != row.seqNo ==>
                  (RowPasses(p, u, page[i]) <==> !(k + 1 < |t| && page[i] == t[k + 1] && row.rowHash != t[k].rowHash))
        ensures k + 1 < |t| ==> (page[i].seqNo == t[k + 1].seqNo <==> page[i] == t[k + 1])
      {
        assert page[i] in u;
        var j :| 0 <= j < |u| && u[j] == page[i];
        ReplacedRow(p, t, k, row, j);
        RowsApart(t, k, j);
        if k + 1 < |t| {
          RowsApart(t, k + 1, j);
        }
      }
      assert k + 1 < |t| ==> row.seqNo < t[k + 1].seqNo;
      forall x | x in page ensures exists i :: 0 <= i < |page| && page[i] == x {
      }
    }
  }

  lemma RowsApart(t: seq<Row>, k: nat, j: nat)
    requires Ordered(t) && k < |t| && j < |t|
    ensures t[j].seqNo == t[k].seqNo <==> j == k
  {
  }

  /**
    An edit of any kind that keeps the stored hash is noticed exactly when it changes the
    hashed text, and then at row k and nowhere else: a page that passed before fails at k
    if it holds row k, and else passes.
   */
  lemma EditLocalised(p: Platform, t: seq<Row>, k: nat, row: Row, page: seq<Row>)
    requires p.Valid() && Chained(p, t) && k < |t|
    requires row.seqNo == t[k].seqNo && row.rowHash == t[k].rowHash
    requires PassedBefore(p, t, t[k := row], page)
    ensures var before, after := TextAt(p, t, k), RowPayload(p, PrevHash(t, k), row);
            || Collide(p, after, before)
            || IsVerdict(p, t[k := row], page, if row in page && after != before then FailAt(row.seqNo) else Pass)
  {
    hide RowPayload;
    assert LinkedAt(p, t, k);
    ReplacedPage(p, t, k, row, page);
  }

  /** An edit of any one covered field, to any value, fails every page that holds row k, at k. */
  lemma FieldEditFails(p: Platform, t: seq<Row>, k: nat, row: Row, page: seq<Row>)
    requires p.Valid() && Chained(p, t) && k < |t|
    requires EditsOneField(t[k], row) && HoldsJson(t[k]) && HoldsJson(row)
    requires !SameCovered(t[k], row) && row in page && PassedBefore(p, t, t[k := row], page)
    ensures || Collide(p, RowPayload(p, PrevHash(t, k), row), TextAt(p, t, k))
            || IsVerdict(p, t[k := row], page, FailAt(row.seqNo))
  {
    hide RowPayload, SameCovered, HoldsJson, EditsOneField, PassedBefore, Chained;
    OneFieldShows(p, PrevHash(t, k), t[k], row);
    EditLocalised(p, t, k, row, page);
  }

  /** What the hash does not tell apart: with a uuid, no brace before the arguments, and arguments
      that are an object, exactly the cut between agent id and tool name, and the order of keys. */
  lemma UnnoticedIff(p: Platform, t: seq<Row>, k: nat, row: Row, page: seq<Row>)
    requires p.Valid() && Chained(p, t) && k < |t|
    requires row.seqNo == t[k].seqNo && row.rowHash == t[k].rowHash
    requires Legible(t[k]) && Legible(row) && (Result(t[k]).Int? ==> !Result(row).Int?)
    requires row in page && PassedBefore(p, t, t[k := row], page)
    ensures || Collide(p, RowPayload(p, PrevHash(t, k), row), TextAt(p, t, k))
            || (IsVerdict(p, t[k := row], page, Pass) <==> SameButCut(t[k], row))
  {
    hide RowPayload, Legible, SameButCut;
    var prev := PrevHash(t, k);
    LegibleText(p, prev, t[k], row);
    EditLocalised(p, t, k, row, page);
    if RowPayload(p, prev, row) != TextAt(p, t, k) && IsVerdict(p, t[k := row], page, Pass) {
      VerdictIfPass(p, t, k, row, page);
    }
  }

  lemma VerdictIfPass(p: Platform, t: seq<Row>, k: nat, row: Row, page: seq<Row>)
    requires k < |t| && IsVerdict(p, t[k := row], page, Pass)
    ensures !IsVerdict(p, t[k := row], page, FailAt(row.seqNo))
  {
    hide RowPayload;
  }

  /**
    So a forger who keeps the text goes unnoticed: with the first letters of the tool name
    moved to the agent id, neither agent nor tool is the true one and every page still passes.
   */
  lemma MovedCutPasses(p: Platform, t: seq<Row>, k: nat, cut: nat, row: Row, page: seq<Row>)
    requires p.Valid() && Chained(p, t) && k < |t| && 0 < cut <= |t[k].toolName|
    requires row == t[k].(agentId := t[k].agentId + t[k].toolName[..cut], toolName := t[k].toolName[cut..])
    requires PassedBefore(p, t, t[k := row], page)
    ensures IsVerdict(p, t[k := row], page, Pass) && !SameCovered(t[k], row)
  {
    hide RowPayload;
    assert t[k].agentId + t[k].toolName == row.agentId + row.toolName;
    AgentAndToolRunTogether(p, PrevHash(t, k), t[k], row);
    EditLocalised(p, t, k, row, page);
  }

  // u is t with other values in the columns the hash leaves out.
  ghost predicate UncoveredEdits(t: seq<Row>, u: seq<Row>) {
    && |u| == |t|
    && forall i :: 0 <= i < |t| ==>
         u[i] == t[i].(role := u[i].role, reason := u[i].reason, approvalId := u[i].approvalId,
                       resultStatus := u[i].resultStatus, durationMs := u[i].durationMs, traceId := u[i].traceId)
  }

  /**
    Role, reason, approval id, status, duration and trace id are outside the
    hash: rewriting them anywhere, in any number of rows of any table, changes no verdict.
   */
  lemma UncoveredEditsUnnoticed(p: Platform, t: seq<Row>, u: seq<Row>, i: nat)
    requires UncoveredEdits(t, u) && i < |t|
    ensures RowPasses(p, u, u[i]) <==> RowPasses(p, t, t[i])
  {
    hide RowPayload;
    SameHashAt(t, u, t[i].seqNo - 1);
    match Predecessor(t, t[i].seqNo)
    case None =>
    case Some(prev) => SamePayload(p, prev, t[i], u[i]);
  }

  lemma {:induction false} SameHashAt(t: seq<Row>, u: seq<Row>, n: int)
    requires UncoveredEdits(t, u)
    ensures HashAt(u, n) == HashAt(t, n)
  {
    if t != [] {
      SameHashAt(t[1..], u[1..], n);
    }
  }

  lemma SamePayload(p: Platform, prev: string, r: Row, s: Row)
    requires r.id == s.id && r.agentId == s.agentId && r.toolName == s.toolName && r.args == s.args
    requires r.resultSummary == s.resultSummary && r.createdAt == s.createdAt
    ensures RowPayload(p, prev, r) == RowPayload(p, prev, s)
  {
  }

  // The table after the rows with these numbers are deleted.
  function Without(t: seq<Row>, gone: set<int>): seq<Row> {
    if t == [] then []
    else (if t[0].seqNo in gone then [] else [t[0]]) + Without(t[1..], gone)
  }

  lemma {:induction false} WithoutHashAt(t: seq<Row>, gone: set<int>, n: int)
    ensures HashAt(Without(t, gone), n) == if n in gone then None else HashAt(t, n)
  {
    if t != [] {
      var rest := Without(t[1..], gone);
      WithoutHashAt(t[1..], gone, n);
      assert t[0].seqNo !in gone ==> ([t[0]] + rest)[1..] == rest;
      assert t[0].seqNo in gone ==> [] + rest == rest;
    }
  }

  /**
    Deleting any set of rows from any table: a row that is left verifies exactly when it
    did and the row numbered before it, if it is not the first, is left too.
   */
  lemma DeletedRows(p: Platform, t: seq<Row>, gone: set<int>, row: Row)
    ensures RowPasses(p, Without(t, gone), row) <==>
              RowPasses(p, t, row) && (row.seqNo == 1 || row.seqNo - 1 !in gone)
  {
    hide RowHash;
    WithoutHashAt(t, gone, row.seqNo - 1);
  }

  /** Deleting row k fails the row after it and changes no other verdict; deleting the last row is not noticed. */
  lemma DeletedRow(p: Platform, t: seq<Row>, k: nat, j: nat)
    requires Chained(p, t) && k < |t| && j < |t| && j != k
    ensures RowPasses(p, Without(t, {t[k].seqNo}), t[j]) <==> RowPasses(p, t, t[j]) && j != k + 1
  {
    hide RowPayload;
    DeletedRows(p, t, {t[k].seqNo}, t[j]);
    ChainedPasses(p, t, j);
    assert t[0].seqNo >= 1 && (j > 0 ==> t[0].seqNo < t[j].seqNo);
    if j > 0 {
      RowsApart(t, k, j - 1);
    }
  }

  // ------------------------------------------------------------ head commitment

  // The text whose digest row i stores.
  function TextAt(p: Platform, t: seq<Row>, i: nat): string
    requires i < |t|
  {
    RowPayload(p, PrevHash(t, i), t[i])
  }

  // At equal distance from their heads, the two tables hash two different texts to one digest.
  ghost predicate CollisionBelow(p: Platform, t: seq<Row>, u: seq<Row>) {
    exists d :: 0 <= d < |t| && d < |u| && CollideAt(p, t, u, d)
  }

  ghost predicate CollideAt(p: Platform, t: seq<Row>, u: seq<Row>, d: nat)
    requires d < |t| && d < |u|
  {
    Collide(p, TextAt(p, t, |t| - 1 - d), TextAt(p, u, |u| - 1 - d))
  }

  // Some row's digest is the genesis constant.
  ghost predicate GenesisHit(p: Platform, t: seq<Row>) {
    exists i :: 0 <= i < |t| && p.sha256(TextAt(p, t, i)) == GENESIS_HASH
  }

  // The digest was broken at a row of these very tables.
  ghost predicate Broken(p: Platform, t: seq<Row>, u: seq<Row>) {
    CollisionBelow(p, t, u) || GenesisHit(p, t) || GenesisHit(p, u)
  }

  // Row by row, one text and one stored hash.
  ghost predicate SameTexts(p: Platform, t: seq<Row>, u: seq<Row>) {
    && |t| == |u|
    && forall i {:trigger SameTextAt(p, t, u, i)} :: 0 <= i < |t| ==> SameTextAt(p, t, u, i)
  }

  ghost predicate SameTextAt(p: Platform, t: seq<Row>, u: seq<Row>, i: nat)
    requires i < |t| && i < |u|
  {
    TextAt(p, t, i) == TextAt(p, u, i) && t[i].rowHash == u[i].rowHash
  }

  // Texts that are equal follow one predecessor, as its hash has a fixed length.
  lemma SameText(p: Platform, prev1: string, r: Row, prev2: string, s: Row)
    requires |prev1| == |prev2| && RowPayload(p, prev1, r) == RowPayload(p, prev2, s)
    ensures prev1 == prev2
  {
    PayloadParts(prev1, r.id, r.agentId, r.toolName, r.args, Result(r), p.iso(r.createdAt));
    PayloadParts(prev2, s.id, s.agentId, s.toolName, s.args, Result(s), p.iso(s.createdAt));
    Front(prev1, r.id + ((r.agentId + r.toolName) + JsonPart(r.args, Result(r), p.iso(r.createdAt))),
          prev2, s.id + ((s.agentId + s.toolName) + JsonPart(s.args, Result(s), p.iso(s.createdAt))));
  }

  /**
    A head hash commits to the whole history: two chains of whatever rows with the same
    last hash have the same length, and hash the same text at every row, unless the
    digest was broken at a row of these very tables.
   */
  lemma {:induction false} HeadCommits(p: Platform, t: seq<Row>, u: seq<Row>)
    requires p.Valid() && Chained(p, t) && Chained(p, u) && t != [] && u != []
    requires t[|t| - 1].rowHash == u[|u| - 1].rowHash
    ensures SameTexts(p, t, u) || Broken(p, t, u)
    decreases |t|
  {
    hide RowPayload;
    var m, n := |t| - 1, |u| - 1;
    assert LinkedAt(p, t, m) && LinkedAt(p, u, n);
    PrevHashLength(p, t, m);
    PrevHashLength(p, u, n);
    if TextAt(p, t, m) != TextAt(p, u, n) {
      assert CollideAt(p, t, u, 0);
    } else {
      SameText(p, PrevHash(t, m), t[m], PrevHash(u, n), u[n]);
      if m == 0 || n == 0 {
        assert n > 0 ==> LinkedAt(p, u, n - 1) && p.sha256(TextAt(p, u, n - 1)) == u[n - 1].rowHash;
        assert m > 0 ==> LinkedAt(p, t, m - 1) && p.sha256(TextAt(p, t, m - 1)) == t[m - 1].rowHash;
        assert m == n == 0 ==> SameTextAt(p, t, u, 0);
      } else {
        ChainPrefix(p, t, m);
        ChainPrefix(p, u, n);
        HeadCommits(p, t[..m], u[..n]);
        HeadStep(p, t, u);
      }
    }
  }

  lemma ChainPrefix(p: Platform, t: seq<Row>, m: nat)
    requires Chained(p, t) && m <= |t|
    ensures Chained(p, t[..m])
    ensures forall i :: 0 <= i < m ==> TextAt(p, t[..m], i) == TextAt(p, t, i)
  {
    hide RowPayload;
    forall i | 0 <= i < m ensures LinkedAt(p, t[..m], i) && TextAt(p, t[..m], i) == TextAt(p, t, i) {
      assert LinkedAt(p, t, i) && PrevHash(t[..m], i) == PrevHash(t, i);
    }
  }

  lemma HeadStep(p: Platform, t: seq<Row>, u: seq<Row>)
    requires |t| > 1 && |u| > 1 && Chained(p, t) && Chained(p, u)
    requires SameTexts(p, t[..|t| - 1], u[..|u| - 1]) || Broken(p, t[..|t| - 1], u[..|u| - 1])
    requires TextAt(p, t, |t| - 1) == TextAt(p, u, |u| - 1) && t[|t| - 1].rowHash == u[|u| - 1].rowHash
    ensures SameTexts(p, t, u) || Broken(p, t, u)
  {
    hide RowPayload, CollisionBelow, GenesisHit, Chained, TextAt;
    var t', u' := t[..|t| - 1], u[..|u| - 1];
    if SameTexts(p, t', u') {
      ChainPrefix(p, t, |t| - 1);
      ChainPrefix(p, u, |u| - 1);
      forall i | 0 <= i < |t| ensures SameTextAt(p, t, u, i) {
        assert i < |t| - 1 ==> SameTextAt(p, t', u', i);
      }
    } else if CollisionBelow(p, t', u') {
      CollisionLifts(p, t, u);
    } else if GenesisHit(p, t') {
      GenesisLifts(p, t);
    } else {
      GenesisLifts(p, u);
    }
  }

  lemma CollisionLifts(p: Platform, t: seq<Row>, u: seq<Row>)
    requires |t| > 1 && |u| > 1 && Chained(p, t) && Chained(p, u)
    requires CollisionBelow(p, t[..|t| - 1], u[..|u| - 1])
    ensures CollisionBelow(p, t, u)
  {
    hide Chained, TextAt, Collide;
    var t', u' := t[..|t| - 1], u[..|u| - 1];
    ChainPrefix(p, t, |t| - 1);
    ChainPrefix(p, u, |u| - 1);
    var d :| 0 <= d < |t'| && d < |u'| && CollideAt(p, t', u', d);
    assert CollideAt(p, t, u, d + 1);
  }

  lemma GenesisLifts(p: Platform, t: seq<Row>)
    requires |t| > 1 && Chained(p, t) && GenesisHit(p, t[..|t| - 1])
    ensures GenesisHit(p, t)
  {
    hide RowPayload;
    var t' := t[..|t| - 1];
    ChainPrefix(p, t, |t| - 1);
    var i :| 0 <= i < |t'| && p.sha256(TextAt(p, t', i)) == GENESIS_HASH;
    assert p.sha256(TextAt(p, t, i)) == GENESIS_HASH;
  }

  /**
    What one text at row i says of the rows: legible ones agree in every covered field but
    for the cut between agent id and tool name; rows as the gateway writes them in every one.
   */
  lemma SameTextSays(p: Platform, t: seq<Row>, u: seq<Row>, i: nat)
    requires p.Valid() && Chained(p, t) && Chained(p, u) && SameTexts(p, t, u) && i < |t|
    ensures Legible(t[i]) && Legible(u[i]) && (Result(t[i]).Int? ==> !Result(u[i]).Int?) ==> SameButCut(t[i], u[i])
    ensures WellFormed(t[i]) && WellFormed(u[i]) ==> SameCovered(t[i], u[i])
  {
    hide RowPayload, Legible, SameButCut, WellFormed, SameCovered, Chained;
    assert SameTextAt(p, t, u, i);
    PrevHashLength(p, t, i);
    PrevHashLength(p, u, i);
    SameText(p, PrevHash(t, i), t[i], PrevHash(u, i), u[i]);
    if Legible(t[i]) && Legible(u[i]) && (Result(t[i]).Int? ==> !Result(u[i]).Int?) {
      LegibleText(p, PrevHash(t, i), t[i], u[i]);
    }
    if WellFormed(t[i]) && WellFormed(u[i]) {
      PayloadCoversRow(p, PrevHash(t, i), t[i], PrevHash(u, i), u[i]);
    }
  }

  ghost predicate SameHistory(t: seq<Row>, u: seq<Row>) {
    && |t| == |u|
    && forall i :: 0 <= i < |t| ==> SameCovered(t[i], u[i]) && t[i].rowHash == u[i].rowHash
  }

  /** Of tables with only rows as the gateway writes them, the head commits to every covered field. */
  lemma HeadCommitsFields(p: Platform, t: seq<Row>, u: seq<Row>)
    requires p.Valid() && Chained(p, t) && Chained(p, u) && t != [] && u != []
    requires forall i :: 0 <= i < |t| ==> WellFormed(t[i])
    requires forall i :: 0 <= i < |u| ==> WellFormed(u[i])
    requires t[|t| - 1].rowHash == u[|u| - 1].rowHash
    ensures SameHistory(t, u) || Broken(p, t, u)
  {
    hide Chained, WellFormed, SameCovered, Legible, SameButCut, Broken, TextAt;
    HeadCommits(p, t, u);
    if SameTexts(p, t, u) {
      forall i | 0 <= i < |t| ensures SameCovered(t[i], u[i]) && t[i].rowHash == u[i].rowHash {
        SameTextSays(p, t, u, i);
        assert SameTextAt(p, t, u, i);
      }
    }
  }

  // u is t with the cut between agent id and tool name moved, in any rows.
  ghost predicate Recut(t: seq<Row>, u: seq<Row>) {
    && |u| == |t|
    && forall i :: 0 <= i < |t| ==>
         && u[i] == t[i].(agentId := u[i].agentId, toolName := u[i].toolName)
         && u[i].agentId + u[i].toolName == t[i].agentId + t[i].toolName
  }

  /**
    What a head does not commit to: with the cut moved in any rows and no hash changed, the
    table is a chain with the same head and the same texts, and every verdict is the same.
   */
  lemma RecutTableUnnoticed(p: Platform, t: seq<Row>, u: seq<Row>)
    requires Chained(p, t) && Recut(t, u)
    ensures Chained(p, u) && SameTexts(p, t, u)
    ensures forall i :: 0 <= i < |t| ==> (RowPasses(p, u, u[i]) <==> RowPasses(p, t, t[i]))
  {
    hide RowPayload;
    forall i | 0 <= i < |t| ensures SameTextAt(p, t, u, i) && LinkedAt(p, u, i) {
      assert LinkedAt(p, t, i) && PrevHash(u, i) == PrevHash(t, i);
      AgentAndToolRunTogether(p, PrevHash(t, i), t[i], u[i]);
    }
    forall i | 0 <= i < |t| ensures RowPasses(p, u, u[i]) <==> RowPasses(p, t, t[i]) {
      ChainedPasses(p, t, i);
      ChainedPasses(p, u, i);
    }
  }

  // ------------------------------------------------------- recomputed chains

  /** A gap-free table whose rows all pass verification is a chain. */
  lemma PassingIsChained(p: Platform, t: seq<Row>)
    requires GapFree(t) && forall i :: 0 <= i < |t| ==> RowPasses(p, t, t[i])
    ensures Chained(p, t)
  {
    hide RowPayload;
    forall i | 0 <= i < |t| ensures LinkedAt(p, t, i) {
      assert RowPasses(p, t, t[i]);
      if i > 0 {
        HashAtFinds(t, i - 1);
      }
    }
  }

  /** Verification of a whole gap-free table accepts the chains and nothing else. */
  lemma PassesIffChained(p: Platform, t: seq<Row>)
    requires GapFree(t)
    ensures IsVerdict(p, t, t, Pass) <==> Chained(p, t)
  {
    hide RowPayload;
    if IsVerdict(p, t, t, Pass) {
      PassingIsChained(p, t);
    }
    if Chained(p, t) {
      GoodChainPasses(p, t, t);
    }
  }

  // The rows with every hash computed anew.
  function Rechained(p: Platform, t: seq<Row>): seq<Row> {
    if t == [] then []
    else
      var before, row := Rechained(p, t[..|t| - 1]), t[|t| - 1];
      before + [row.(rowHash := RowHash(p, PrevHash(before, |before|), row))]
  }

  // The same rows but for their hashes.
  ghost predicate SameButHashes(t: seq<Row>, u: seq<Row>) {
    |u| == |t| && forall i :: 0 <= i < |t| ==> u[i] == t[i].(rowHash := u[i].rowHash)
  }

  lemma {:induction false} RechainedLinks(p: Platform, t: seq<Row>)
    ensures var u := Rechained(p, t);
            && SameButHashes(t, u)
            && forall i {:trigger LinkedAt(p, u, i)} :: 0 <= i < |u| ==> LinkedAt(p, u, i)
  {
    hide RowPayload;
    if t != [] {
      var before, row := Rechained(p, t[..|t| - 1]), t[|t| - 1];
      var u := Rechained(p, t);
      RechainedLinks(p, t[..|t| - 1]);
      SamePayload(p, PrevHash(before, |before|), row, u[|t| - 1]);
      forall i | 0 <= i < |u| ensures LinkedAt(p, u, i) {
        assert PrevHash(u, i) == PrevHash(before, i);
        assert i < |before| ==> LinkedAt(p, before, i);
      }
    }
  }

  /**
    As the digest has no key, whoever can write the table can compute it anew: any gap-free
    rows whatever, with their hashes recomputed, pass on every page. Only a head kept
    elsewhere tells: it differs from that of any chain with other texts, or the digest was broken.
   */
  lemma RecomputedChainPasses(p: Platform, t: seq<Row>, honest: seq<Row>, page: seq<Row>)
    requires p.Valid() && GapFree(t) && t != [] && Chained(p, honest) && honest != []
    requires forall i :: 0 <= i < |page| ==> page[i] in Rechained(p, t)
    ensures var u := Rechained(p, t);
            && SameButHashes(t, u) && Chained(p, u) && IsVerdict(p, u, page, Pass)
            && (!SameTexts(p, honest, u) ==> u[|u| - 1].rowHash != honest[|honest| - 1].rowHash || Broken(p, honest, u))
  {
    hide RowPayload, SameTexts, Broken, RowPasses;
    var u := Rechained(p, t);
    RechainedLinks(p, t);
    GoodChainPasses(p, u, page);
    if u[|u| - 1].rowHash == honest[|honest| - 1].rowHash {
      HeadCommits(p, honest, u);
    }
  }
}
