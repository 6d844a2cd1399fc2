# The MCP control plane, verified

A Dafny model of a gateway that stands between AI agents and infrastructure
tools, and proofs of what it promises. Three protocols are modelled in full, and
their properties are proved over every run:

- **The hash-chained audit log.** Concurrent writers take a lock, read the newest
  hash and insert a row; any filtered page is verified later by looking up each
  row's predecessor. `Json`, `JsonText` and `JsonOrder` model the JSON printer and
  reader (RFC 8259, sections 4 and 7) and prove them inverse and the sorted text a
  normal form. `AuditRow` proves what the undelimited hash input determines,
  `AuditChain` what verification notices and what a head hash commits to,
  `AuditWriters` that interleaved writers keep the chain, `AuditLog` the recording,
  verifying and querying methods, `AuditExport` the NDJSON export.
- **The sliding-window rate limiter.** `RateLimiter` proves that the Redis sorted
  set decides as a plain log of admitted calls would, `RateLimiterPromises` what its
  answers promise, `RateLimiterInterleaved` how far overlapping checks can overrun
  the limit.
- **Policy, approvals and execution.** `Policy` has the interceptor, the Rego rules
  with their data and the reading of OPA's reply, `PolicyLaws` what they decide, call by
  call; `Approvals` the Redis store;
  `Gateway` the request handlers, as methods on a class proved equal to a step
  function; `GatewayRuns`, `GatewaySafety` and `GatewayAccounts` what holds of every
  run, `GatewayAnswers` what every call, ruling and poll is answered and does; `ApprovalRace` what remains true when decision callbacks overlap; `Manifest`
  the one executor whose argument handling the policy depends on.

`SseHub` is the fan-out of approval results to open event streams.

## Conventions

- The digest is a function parameter that gives 64 characters. It is not assumed
  injective, which no digest is: where collisions matter, the conclusion is "or
  these two texts, found in these tables, collide".
- `jsonb` storage is a parameter known only to keep a value's content and to give
  plain JSON; `isoformat` is an injective parameter.
- Clocks, fresh ids, executor outcomes and OPA's availability are inputs. Each
  Redis or Postgres call is one atomic step.
- `After` folds a sequence of steps, `IsRun` says that each was possible.

## Where the code and its documentation differ

The model follows the code.

- `docs/threat-model.md:118` says that changing any row breaks all subsequent
  hashes. It breaks row k, or row k + 1 as well if the stored hash changes, and no
  other (`AuditChain.ReplacedPage`). Role, reason, approval id, status, duration and
  trace id are outside the hash (`AuditChain.UncoveredEditsUnnoticed`).
- `docs/architecture.md:202-203` says that the chain shows whether rows were
  modified or deleted. Deleting the newest row is not noticed (`AuditChain.DeletedRow`),
  and as the digest has no key, rows whose hashes are all computed anew pass on every
  page (`AuditChain.RecomputedChainPasses`). What tells is the newest hash, kept
  elsewhere (`AuditWriters.HeadAnchorsHistory`), and even that not a cut between agent
  id and tool name that was moved (`AuditChain.RecutTableUnnoticed`).
- A rolled back insert loses a number of the sequence for good, and the row after
  it never verifies although nobody touched it
  (`AuditWriters.RolledBackInsertBreaksNext`, `AuditWriters.VerdictIsFinal`).
- Agent id and tool name run together in the hashed text; only the registered tool
  names keep them apart. Moving letters from one to the other in a stored row goes
  unnoticed on every page (`AuditChain.MovedCutPasses`); what else does is exactly
  known (`AuditChain.UnnoticedIff`).
- `docs/api-design.md:412` describes a counter with INCR and EXPIRE; the code keeps
  a sorted set. The limit is kept on every run exactly when checks neither overlap
  nor take any time between reading the clock and counting
  (`RateLimiterInterleaved.LimitKeptIff`): k overlapping checks admit up to k - 1
  calls too many without any delay, up to 2k - 1 with one, as the key expires between
  clock and count, and no more (`RateLimiterInterleaved.SlowOverrunIsBounded`).
- The tool table in `docs` asks for an approval of `trigger_jenkins_job` in prod. The
  only role that may use it may not act in prod, and no run of it ever waits for an
  approval (`PolicyLaws.ShippedPolicy`). That table lets two roles use `open_ticket`; the policy data
  lets none, so it never runs (`GatewaySafety.DangerousRuns`).
- An approval is promised to be decided once. That holds when callbacks do not
  overlap; k overlapping ones can run its executor k times, and no more
  (`ApprovalRace.DecidedOnceIff`, `ApprovalRace.OverlapReachesBound`); a tool can have
  been run while the record ends as denied (`ApprovalRace.ApprovedAndDenied`). A ruling
  written after the record's deadline leaves a record without expiry
  (`GatewaySafety.LateRulingStays`).

- `README.md:32` promises that every tool call is logged. An executor runs before its
  row is recorded, so when the database fails there is a run without a row
  (`GatewayAccounts.RunWithoutRow`); how many acts have none is exactly known
  (`GatewayAccounts.CompleteIff`). What is proved of approvals and executor runs holds
  with such failures too.

## Model

| member | source | states |
|---|---|---|
| JsonText.LoadsDumps | app/audit.py:76-81 | decoding a jsonb text gives back the value that was printed into it, for every JSON value, escapes and surrogate pairs included |
| JsonText.ValueReads | app/audit.py:64-72 | a printed value is read back exactly whatever text follows it, which is left over |
| JsonOrder.SameTextIffEquivalent | app/audit.py:61-63 | printed with sorted keys and `default=str`, two values give the same text if and only if they have the same content up to key order at every depth |
| JsonOrder.PrefixFree | app/audit.py:64-72 | two texts that begin with printed values and are equal begin with the same value and go on alike: printed objects are prefix-free |
| JsonOrder.CanonIsJson | app/audit.py:69-70 | sorting keys and applying `default=str` gives plain JSON with distinct keys |
| JsonOrder.DumpsPrintable | app/main.py:598-600 | printed JSON holds only printable ASCII, so no line break |
| JsonOrder.KeysRise | app/audit.py:61-63 | an object is printed with its keys in rising order of their characters |
| JsonOrder.PrintsAsPython | app/audit.py:69-70 | a sample of the sorted text, character by character: separators, literals, a negative number, an escape and a character outside ASCII |
| AuditRow.ToolsAreSuffixFree | app/main.py:94-108 | no registered tool name ends another, so a text that ends in one is cut in one way |
| AuditRow.PayloadDecodes | app/audit.py:64-72 | two hash inputs are equal if and only if every part is, taking agent id and tool name as one part |
| AuditRow.PayloadCoversRow | app/audit.py:59-73 | for rows the gateway writes, equal hash inputs mean the same predecessor hash and the same id, agent, tool, arguments, result and time, and conversely |
| AuditRow.LegibleText | app/audit.py:64-72 | for rows with a uuid, no brace before the arguments and arguments that are an object, after one predecessor, equal hash inputs mean agreement in all covered fields but for the cut between agent id and tool name, and conversely |
| AuditRow.OneFieldShows | app/audit.py:64-72 | whatever a row holds, changing one covered field to any value its column can hold changes the hash input, unless only the order of keys changed |
| AuditRow.StoredRowHashesAlike | app/audit.py:123-143 | the hash recomputed from the stored columns is the hash the writer stored, with jsonb free to reorder keys, and a missing result agreeing with SQL NULL |
| AuditRow.NewRowReports | app/audit.py:128-148 | the row inserted for an event has the event's value in every column, the decision as its status, and JSON columns with the event's content |
| AuditRow.NewRowWellFormed | app/audit.py:128-148 | a recording of a registered tool by an agent whose id has no brace gives a row whose hash input decodes |
| AuditChain.VerdictUnique | app/audit.py:195-206 | a page has one verdict: pass, or fail at the least failing number |
| AuditChain.ChainedPasses | app/audit.py:210-218 | in a chain a row verifies if and only if it is number 1 or the row before it has the number before its own |
| AuditChain.GoodChainPasses | app/audit.py:195-233 | every page of a gap-free chain passes, in any order and with any rows left out |
| AuditChain.ReplacedRow | app/audit.py:201-206 | in any chain, with or without skipped numbers, after any row took the place of row k all rows but k and k + 1 keep their verdicts; k verifies iff it did and its hash is that of its own fields, k + 1 iff it did and row k's stored hash is unchanged, or the digest collides |
| AuditChain.ReplacedPage | app/audit.py:195-233 | the verdict of any page that passed before, after any row whatever took the place of row k |
| AuditChain.EditLocalised | app/audit.py:201-232 | any edit that keeps the stored hash, whatever it writes, fails exactly the pages holding row k, at k, and only if it changes the hash input |
| AuditChain.FieldEditFails | app/audit.py:222-232 | an edit of any one covered field, to any value, fails every page holding row k, at k, or the digest collides |
| AuditChain.UnnoticedIff | app/audit.py:64-72 | an edit of any number of fields goes unnoticed if and only if it leaves all covered fields but for the cut between agent id and tool name and the order of keys, for legible rows and short of a collision |
| AuditChain.MovedCutPasses | app/audit.py:67-68 | moving the first letters of the tool name to the agent id leaves every page passing, though agent and tool are both false |
| AuditChain.UncoveredEditsUnnoticed | app/audit.py:222-230 | edits of uncovered columns, in any rows of any table, change no verdict |
| AuditChain.DeletedRows | app/audit.py:214-218 | after deleting any set of rows of any table, a row that is left verifies iff it did and the row numbered before it, if it is not the first, is left too |
| AuditChain.DeletedRow | app/audit.py:214-218 | deleting row k of any chain makes row k + 1 fail and changes no other verdict, so deleting the last row goes unnoticed |
| AuditChain.HeadCommits | app/audit.py:59-73 | two chains of whatever rows with the same newest hash have equal length and at every row the same hash input and stored hash, or a collision or a preimage of the genesis hash is among their rows |
| AuditChain.SameTextSays | app/audit.py:64-72 | where the hash inputs of two chains are the same, legible rows agree in every covered field but for the cut between agent id and tool name, and rows as the gateway writes them in every one |
| AuditChain.HeadCommitsFields | app/audit.py:59-73 | of two chains that hold only rows as the gateway writes them, the newest hash commits to every covered field of every row, or the digest was broken |
| AuditChain.RecutTableUnnoticed | app/audit.py:67-68 | what the newest hash does not commit to: with the cut between agent id and tool name moved in any rows and no hash changed, the table is a chain with the same hash inputs and every verdict is the same |
| AuditChain.PassesIffChained | app/audit.py:195-233 | a gap-free table passes as a whole if and only if it is a chain |
| AuditChain.RecomputedChainPasses | app/audit.py:195-233 | any gap-free rows with their hashes computed anew pass on every page, and their newest hash differs from that of any chain with other hash inputs, or the digest was broken |
| AuditChain.PassingIsChained | app/audit.py:195-233 | a gap-free table whose rows all verify is a chain, so what is proved of chains holds of it |
| AuditWriters.RunsKeep | app/audit.py:111-148 | every interleaving of writers, with rollbacks anywhere, keeps the table a chain, one writer past the lock, and every drawn number committed, in flight or lost |
| AuditWriters.RowVerifiesIff | migrations/versions/0001_create_audit_tables.py:47 | after any interleaving a row verifies if and only if it is number 1 or the number before its own was not lost to a rolled back insert |
| AuditWriters.WithoutLossEveryPagePasses | app/audit.py:111-148 | if no drawn number was lost, the numbers are 1 to n and every page passes |
| AuditWriters.VerdictIsFinal | app/audit.py:210-218 | a committed row keeps its verdict whatever is recorded later |
| AuditWriters.RolledBackInsertBreaksNext | migrations/versions/0001_create_audit_tables.py:47 | the run of one writer that aborts after its insert and one that commits leaves a single row, number 2, that does not verify |
| AuditWriters.WithoutLockChainBreaks | app/audit.py:112-115 | with the guard of the lock dropped, after any run two writers that both read before either inserts commit rows of which the second does not verify, or the digest repeats or collides |
| AuditWriters.RowsComeFromDrafts | app/audit.py:105-148 | every committed row is the row of a recording that was begun, hashed off the row committed before it |
| AuditWriters.RowsReportDrafts | app/audit.py:105-148 | in any interleaving every committed row says in every column what a recording begun in the run said, and stores the hash of its own fields off the row before it |
| AuditWriters.RowsAreWellFormed | app/audit.py:128-148 | every row written in any interleaving of gateway recordings is one whose hash input decodes |
| AuditWriters.SameHeadSameHistory | app/audit.py:111-148 | two runs of writers that end in the same newest hash recorded the same history, or a collision is at hand |
| AuditWriters.HeadAnchorsHistory | app/audit.py:195-233 | against the table of a run of writers, any gap-free table that passes and ends in the same hash has the same length and hash inputs, so its legible rows agree but for the cut and its well-formed rows in every covered field, or the digest was broken |
| AuditLog.BuildFilters | app/audit.py:236-259 | the n-th placeholder binds the n-th parameter, and the clause with its parameters holds of exactly the rows that meet every supplied filter |
| AuditLog.Narrowed | app/audit.py:249-257 | adding a condition with a new slot narrows the clause by that condition and leaves the meaning of the earlier slots |
| AuditLog.NewestFirstIs | app/audit.py:284-289 | a query gives every matching row, each once, by strictly falling number |
| AuditLog.PagesPartition | app/audit.py:276-289 | pages stepped by the limit concatenate to all matching rows, none skipped and none repeated |
| AuditLog.SortRowsPermutes | app/audit.py:210 | verification walks the page's rows, each as often as it comes, in ascending order |
| AuditLog.FoundFirst | app/audit.py:284-289 | a row just recorded is found, and found first, by exactly the queries whose filters its event meets |
| AuditLog.Log.RecordToolCall | app/audit.py:95-148 | appends one row that reports the event column by column, hashed off the newest one; from then on exactly the queries its event meets find it; the table stays a chain, gap-free if it was |
| AuditLog.Log.VerifyRows | app/audit.py:195-233 | the loop returns the page's verdict: fail at s if and only if s is the least number in the page whose predecessor is missing or whose hash differs |
| AuditLog.PageOfIsPage | app/audit.py:276-289 | at any limit and offset, row j of the page is row offset + j, and the page is short only where the rows end |
| AuditLog.Log.QueryAuditLog | app/audit.py:262-298 | the total is the number of matching rows, the page starts at the asked offset of them, newest first, with a limit held between 1 and 500, and the verdict is that of the page |
| AuditExport.CollectedIsStreamed | scripts/export_audit_to_s3.py:57-61 | the body the script uploads is the body the endpoint streams |
| AuditExport.StreamedSplits | app/main.py:598-600 | cutting the body at its line breaks gives back the lines, as many as there are line breaks |
| AuditExport.RowJsonShows | app/audit.py:173-192 | a row's JSON has fourteen keys, and under each the column that it names |
| AuditExport.ExportRoundTrip | scripts/export_audit_to_s3.py:57-61 | the uploaded body, cut at line breaks, gives one text for each row, in order, that reads back as JSON showing every column of the row under its key |
| AuditExport.RecordedIsExportable | app/audit.py:173-192 | every recorded row can be exported |
| AuditExport.ExportedIs | app/audit.py:301-315 | an export is the rows whose time is in the closed range, each once, by rising number |
| AuditExport.DailyRunsCover | scripts/export_audit_to_s3.py:48-54 | a day's run, at any time of that day, takes a row iff it was written the day before, or at that day's very midnight |
| AuditExport.ExportedTwiceIffMidnight | scripts/export_audit_to_s3.py:48-54 | consecutive daily runs miss no row, and export one twice if and only if it was written exactly at a midnight |
| RateLimiter.SlidingWindowRateLimiter.Check | app/middleware/rate_limit.py:50-86 | the new sorted sets and the answer are those of one check, in which Redis may fail at any command, carried out or not, and no other agent's key changes |
| RateLimiter.FailureCountsNothing | app/middleware/rate_limit.py:82-86 | a check that comes to a failing Redis command lets the call through with the whole limit as remaining, any other ends as without the failure; the call is recorded exactly when the closing transaction was carried out, and no call in the window is forgotten |
| RateLimiter.LimiterRefinesLog | app/middleware/rate_limit.py:50-81 | on every run with a clock that never goes back, a call is admitted if and only if fewer than the limit of the agent's admitted calls lie in the window before it |
| RateLimiter.ExpiryLosesNothing | app/middleware/rate_limit.py:71-74 | the expiry of the whole key never hides an admitted call that is still in the window |
| RateLimiterPromises.LimitNeverExceeded | app/middleware/rate_limit.py:56-68 | no window of the configured length, wherever it ends, holds more admitted calls than the limit |
| RateLimiterPromises.DenialAnswer | app/middleware/rate_limit.py:59-68 | a denied caller gets its limit and a reset time after now and within one window; the rounded reset and Retry-After are less than a second early, and Retry-After, unless it is one second, is not late |
| RateLimiterPromises.ClosedAnswer | app/middleware/rate_limit.py:59-68 | under a limit that lets no one through every call is told to come back a window later |
| RateLimiterPromises.WaitingPays | app/middleware/rate_limit.py:59-68 | a denied caller that waits for Retry-After and a second more, and comes back first, is admitted |
| RateLimiterPromises.AdmissionAnswer | app/middleware/rate_limit.py:76-81 | an admitted caller is told its limit, a remaining count below it, and the end of a window from now, less than a second early |
| RateLimiterPromises.DenialIsExact | app/middleware/rate_limit.py:59-68 | after a denial every call before the reset time is denied and the first one at or after it is admitted |
| RateLimiterPromises.RemainingIsExact | app/middleware/rate_limit.py:76-81 | after an admission exactly `remaining` more calls at that instant are admitted |
| RateLimiterInterleaved.AloneIsAtomic | app/middleware/rate_limit.py:50-81 | a check that nothing interleaves admits the same call and leaves the same scores as the atomic check |
| RateLimiterInterleaved.OverrunIsBounded | app/middleware/rate_limit.py:50-81 | with at most k checks in flight, interleaved at every await, no window holds more than limit + k - 1 admitted calls; a delay between clock and count shortens the window by as much |
| RateLimiterInterleaved.OverlapReachesBound | app/middleware/rate_limit.py:56-74 | for every limit and every k there is a run without delay, each check trimming before it counts, that admits limit + k - 1 calls at one instant |
| RateLimiterInterleaved.SlowOverrunIsBounded | app/middleware/rate_limit.py:50-81 | with at most k checks in flight and however long they take, no window of the limiter's own length holds more than limit + 2k - 1 admitted calls |
| RateLimiterInterleaved.SlowOverlapReachesBound | app/middleware/rate_limit.py:52-74 | for every limit, every k and every delay there is a run that admits limit + 2k - 1 calls in one window, as the key expires between clock and count; with k = 1 one more than the limit |
| RateLimiterInterleaved.LimitKeptIff | app/middleware/rate_limit.py:50-81 | no window holds more admitted calls than the limit on any run, if and only if checks do not overlap and count at the instant they read the clock |
| Approvals.ApprovalStore.CreatePendingApproval | app/approvals.py:44-62 | stores a pending record that lives for the time to live, touches no other, and counts it |
| Approvals.ApprovalStore.DecideApproval | app/approvals.py:72-104 | decides exactly a live, pending, unexpired record, once, keeping its deadline; otherwise changes nothing and says which check failed |
| Gateway.Gateway.ToolsCall | app/main.py:209-408 | the handler's ordered effects on store, executor, audit log and gauge, up to where the store or the database fails, come to one step, with that step's answer |
| Gateway.Gateway.DecideApproval | app/main.py:425-531 | the decision handler's effects on store, executor, audit log, streams and gauge, up to where the store or the database fails, come to one step, with that step's answer |
| Gateway.Gateway.ApprovalStatus | app/main.py:534-539 | a poll reports the live record and changes nothing but the time |
| PolicyLaws.GetIs | app/interceptor.py:62-72 | a dict gives the value that a key has in it, and null for a key that it has not |
| PolicyLaws.EnvironmentIs | app/interceptor.py:18-26 | a call's environment is the one whose name its namespace begins with, and only a true value that is no string has none |
| PolicyLaws.AnyData | policies/authz.rego:8-62 | for any data, what a role's lists, the blocked tools and the approval lists decide, an unknown role being allowed nothing |
| PolicyLaws.ShippedPolicy | policies/data.json:1-45 | with the shipped data a call is allowed if and only if the role is granted the tool, the environment is not prod for the deploy bot and the tool is not blocked on that namespace; it needs an approval if and only if it is allowed and is a shell, a manifest, or a restart or scaling in prod |
| GatewayAnswers.CallRefused | app/main.py:209-259 | a call that is not in order changes nothing and is told the first thing wrong with it: its name, its arguments, an unreadable namespace or name, an unknown tool, or a tool out of scope |
| GatewayAnswers.CallServed | app/main.py:261-408 | a call in order stores a request, is denied, or runs its executor, as the policy decides if the engine answers, adds the row that says so, and is answered what was done, unless the store or the database failed |
| GatewayAnswers.AnswerTellsDeed | app/main.py:261-408 | from the answer to the deed, both ways: a result or failure iff an executor ran and ended so, a pending approval iff a request was stored that expires then, a denial iff it was logged and nothing ran or was stored, an internal error iff something failed |
| GatewayAnswers.ShippedCall | app/main.py:261-408 | with the shipped data, every call in order that the policy permits does run, or does wait for an approval if it needs one, and every other is denied |
| GatewayAnswers.RulingServed | app/main.py:457-531 | a ruling is logged and pushed with who ruled and why, or with the result or the error of the run, and an approval runs the executor on what was requested |
| GatewayAnswers.PollAnswer | app/main.py:534-539 | any poll, after any run, finds the record as it was ruled on or, before that, as it was requested, while it is remembered, and nothing else |
| GatewayRuns.RunKeeps | app/approvals.py:44-104 | after every run, the stored record, the audit rows, the pushes and the executor runs of each approval are determined by how it was requested and ruled on |
| GatewaySafety.RunsAreAuthorised | app/main.py:235-339 | every executor run is of a registered tool in the agent's scope that the policy allowed, and it answers a call that OPA replied to: either needing no approval, or with a later approval, in time, of these very arguments |
| GatewaySafety.DangerousRuns | policies/authz.rego:31-62 | with the shipped data: blocked tools never run on kube-system, shells and manifests never without approval, destructive tools in prod namespaces never without approval nor for the deploy bot, read-only agents run only reading tools, and no ticket is ever opened |
| GatewaySafety.ApprovalRunsOnce | app/main.py:449-481 | an approval runs its executor exactly once if it was approved, on the requested tool and arguments and ruled on no later than it expired, and otherwise never |
| GatewaySafety.DecidedAtMostOnce | app/approvals.py:85-104 | of all callbacks for an approval exactly one takes effect if it has a ruling, and none if it has not |
| GatewaySafety.CallbackAnswer | app/main.py:452-458 | what any callback is answered after any run: gone, conflict with the ruling, or taken, by the approval's history alone |
| GatewaySafety.HistoryIsKept | app/approvals.py:97-100 | requests, rulings, executor runs, pushes and audit rows only ever grow |
| GatewaySafety.RulingIsFinal | app/approvals.py:97-100 | whatever happens after a ruling, callbacks and polls find that same ruling until the deadline set at creation and nothing after it, unless the ruling was written past the deadline, when it stays |
| GatewaySafety.LateRulingStays | app/approvals.py:96-99 | a run whose ruling is written a second past the deadline, after which polls find the record however late |
| GatewayAccounts.GaugeCountsUndecided | app/otel.py:106-114 | the pending gauge is always requests less rulings: the live undecided approvals and the expired undecided ones |
| GatewayAccounts.EveryActIsAudited | app/main.py:264-531 | the audit log holds, in order, one row for each call in scope, whatever came of it, and each ruling, with its agent, tool and arguments or its approval; all but those whose recording the database failed |
| GatewayAccounts.ActsAreCounted | app/main.py:264-531 | there are as many acts to record as calls in scope that reached the store and rulings |
| GatewayAccounts.CompleteIff | app/audit.py:95-148 | the log has as many rows as there were acts if and only if the database failed none of them |
| GatewayAccounts.RunWithoutRow | app/main.py:339-408 | a run in which an executor has run, the log is empty and the caller gets an internal error |
| GatewayAccounts.EveryRunIsAudited | app/main.py:339-408 | the rows allowed, error and executor_timeout are, in order, the executor runs, with their agent, role, tool, arguments, result and approval; all but the runs whose recording the database failed |
| GatewayAccounts.ApprovalIsAudited | app/main.py:452-531 | an approval has one pending row and at most one later row and push, which say how it was ruled on and how the run ended, less what the database failed to record |
| GatewayAccounts.AuditIsLoggable | app/main.py:264-531 | everything the gateway records is of a registered tool, with arguments and result that are objects with distinct keys |
| GatewayAccounts.GatewayHeadCommits | app/audit.py:95-148 | from tool calls to hash chain: two gateways whose logs end in the same hash recorded the same history, or a collision is at hand |
| GatewayAccounts.GatewayHeadAnchors | app/audit.py:195-233 | against what a gateway recorded, any gap-free table that passes and ends in the same hash agrees in every legible row but for the cut between agent id and tool name, or the digest was broken |
| ApprovalRace.RulingsAreBounded | app/approvals.py:85-101 | with at most k callbacks overlapping between read and write, at most k rulings of an approval take effect, and the gauge goes down once for each |
| ApprovalRace.DecidedOnceIff | app/approvals.py:85-101 | from a record that can be decided, at most one ruling takes effect on every run if and only if callbacks do not overlap |
| ApprovalRace.ApprovedAndDenied | app/approvals.py:85-101 | two overlapping callbacks, an approval and a denial, both take effect: the executor runs and the record ends as denied |
| ApprovalRace.OverlapReachesBound | app/approvals.py:85-101 | that bound is reached for every k: k callbacks that read before any writes are all approved |
| Manifest.SentIff | app/tools/tools_spec.py:304-341 | a manifest is sent if and only if it has a version, a kind and a name, no other namespace than the call, a reason in order, and a kind known as namespaced; and what every other is refused with |
| Manifest.OnlyNamespaceIsSet | app/tools/tools_spec.py:304-352 | what is sent goes to the namespace argument, in the call and in the metadata; a manifest naming another is not sent; nothing else in it changes |
| Manifest.SentAgain | app/tools/tools_spec.py:325-336 | giving the sent manifest again sends the very same |
| Manifest.ManifestsAreApproved | app/tools/tools_spec.py:325-352 | in every run, each manifest sent follows an approval of its arguments and goes to the approved namespace, never kube-system |
| SseHub.EventHub.Enter | app/sse_hub.py:18-21 | a new empty queue, put last in the agent's list |
| SseHub.EventHub.Exit | app/sse_hub.py:22-25 | the queue leaves the agent's list, and an empty list leaves the registry |
| SseHub.EventHub.Send | app/sse_hub.py:28-30 | the loop puts the event on each of the agent's queues |
| SseHub.EventHub.Receive | app/main.py:614-619 | takes the oldest event from the queue, if there is one, and just what the ledger of received events says |
| SseHub.RegistryKept | app/sse_hub.py:16-25 | after every run an agent's list is exactly its open subscriptions, oldest first, and the registry holds no empty list |
| SseHub.EveryEventIsDelivered | app/sse_hub.py:16-30 | what a subscription has received and what waits in its queue are, in order, the events published to its agent while it was open |
| SseHub.LeavingTouchesNoOther | app/sse_hub.py:22-25 | closing one subscription leaves every other in its list with its queue, and the agent's entry while another is open |

## Left out

- Executors other than `apply_k8s_manifest`: the Kubernetes, Terraform, Jenkins, Prometheus and ticketing calls are network calls; their outcome is an input.
- The checks and messages inside `apply_k8s_manifest` that read neither namespace nor metadata: what the reason check and the kind lookup come to are inputs.
- Equality of a manifest's namespace with a namespace argument that is no string: Python holds `1 == True`, the model does not; behind the gateway the argument is always a string.
- SHA-256, HMAC and Slack's signature check: the digest is a parameter, a decision is taken as authenticated.
- HTTP, JSON-RPC envelopes, authentication middleware, logging, traces and metrics other than the pending gauge.
- JSON floats, which jsonb renormalises, and lone surrogates, which cannot be encoded.
- The text of SQL statements: a clause is a list of conditions with slots; Postgres and Redis are atomic operations on values.
- RateLimiter.SlidingWindowRateLimiter.Check: times are reals, without the rounding of floating-point numbers.
- RateLimiter.LimiterRefinesLog: is about runs in which Redis does not fail; what a failure lets through is in `RateLimiter.FailureCountsNothing`.
- AuditChain.UnnoticedIff: outside legible rows, say for a brace in an agent id, what an edit must keep is the hash input as a text (`AuditChain.EditLocalised`), not decoded into fields.
- RateLimiterInterleaved.OverrunIsBounded: is about one agent's key; no step touches another agent's.
- ApprovalRace.RulingsAreBounded: is about the callbacks of one approval; callbacks for different approvals touch different keys.
- Gateway.Gateway.ToolsCall: runs as one step; a store or database call that raises has not been carried out, where in truth a lost reply leaves that open.
- Gateway.Gateway.DecideApproval: runs as one step, its failures as for `ToolsCall`; overlap with other callbacks is in `ApprovalRace`.
- AuditWriters.HeadAnchorsHistory: says nothing of the row numbers, which the hash does not cover, nor of the fields of a row that is not legible beyond its hash input.
- Slack notifications, and the request body's own validation.
- Terraform, Helm, Grafana, Docker and CI files: configuration only.
