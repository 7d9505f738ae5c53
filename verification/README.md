# Verified models of the agent runtime and the context caches

This project models the parts of the repository whose guarantees span several functions, processes
or failures, and proves those guarantees for every input and every run.

- **Durable continuation delivery** (`Continuation*.dfy`). The worker's transactions on the inbox,
  delivery and continuation tables, first as functions from one database value to the next
  (`ContinuationTables`), then as statement-by-statement methods of a class proved to have those
  meanings (`ContinuationStore`). `ContinuationProtocol` puts any number of handlers, an
  at-least-once broker, a session lock, an operator who cancels and a target with arbitrary answers
  around them: every transaction and every external call is one step, and a crash, a lost call, a
  lost reply, a lease expiry, a takeover or a redelivery (also while the first handler still runs) may
  come between any two steps. `ContinuationSafety` holds the inductive invariant, `ContinuationRuns` and
  `ContinuationDecisions` the guarantees. `ContinuationFrozen`, `ContinuationPosting` and
  `ContinuationPostRuns` give the exact conditions under which a withdrawn delivery stays as it is and
  under which a delivery can still be posted, each with the run that shows it.
- **Fenced execution and the outbox** (`ExecutionTables`, `ExecutionStore`, `FencedExecution`,
  `OutboxTables`, `OutboxRelay`, `OutboxLoop`): claims fenced by attempt, generation and fence, the
  result commit that adds a finished message, and any number of relays that publish the outbox under
  row locks.
- **Workspace change sets** (`ByteOrder`, `ChangeSet`): the difference of two snapshots as a patch.
- **RESP client** (`Resp*.dfy`): the incremental parser of RESP2 (Redis serialization protocol
  specification, sections "Simple strings", "Simple errors", "Integers", "Bulk strings" and
  "Arrays"), the command encoder, and the pipelined connection.
- **Caches** (`CacheMember`, `CachePool`, `CacheFaults`, `CacheRefinement`, `ExactCache`,
  `SessionCache`, `TieredCache`, `TieredRuns`, `Cascade`, `CascadeGuarantees`): the replicated exact
  cache down to single Redis commands, under any pattern of cut operations; the session tier in front of
  it; runs of both tiers; the invalidation cascade over both, with and without faults.
- **Budget optimizer** (`ContextPack`, `BudgetOptimizer`, `BudgetGuarantees`, `BudgetBound`):
  deduplication and greedy packing against a model of the serialized length, commas and the digits of
  the total included; exactly when the result is within the budget.
- **Mirror merge** (`MirrorMerge`) and **indexed memory search** (`MemoryText`, `MemorySearch`).

What the source changes in place is a class or a method with loops here, and each such method is
proved equal to a function or to a declarative description; the guarantees are lemmas about those.
Broker, target, network, clocks, SMEMBERS order and hash-map order are inputs that may take any value.

Some results are about where a natural expectation fails in the code, each with the exact condition
under which it holds:

- Cancelling a continuation (`.agents/runtime/store.mjs:344-385`) marks a leased delivery dead without
  clearing its lease, so the holder can still overwrite the row and post the prompt. In a reachable
  state a dead row is final if and only if no live handler of that delivery holds its lease with a
  guarded write still ahead (`DeadRowIsFinalIff`). A delivery not posted so far is never posted if and
  only if `CanPost` is false: no handler stands at its post, and the row was attempted before, or nobody
  is on the way to dispatch it and nobody can claim it again (`NeverPostedIff`). For a cancellation this
  gives `CancelStopsThePostIff`; a concrete reachable cancelled delivery that a later run posts is
  `CancelledDeliveryIsPosted`.
- The exact cache is not a plain map plus registry: storing a key again with other dependencies leaves
  an index entry behind, and invalidating the old dependency drops the new value
  (`PlainMapIsNotExact`). The two agree after an invalidation exactly when no such entry names a live
  key (`InvalidateAgreesIff`), and every lookup after a whole run answers alike when every key keeps its
  dependencies (`PlainMapIsExact`). The cache never serves more than the plain map (`HitsArePlainHits`).
- When servers expire an entry and it is then deleted everywhere, the replicas are alike afterwards if
  and only if none or all had expired it, or no dependency of the entry indexes the key
  (`EvictionKeepsReplicasIff`).
- A set that is cut survives the invalidation of one of its dependencies if and only if the key was not
  indexed under it before and the cut came before its turn (`CutSetSurvivesIff`); what still protects
  readers is consensus and the redirect registry (`HitIffConsensus`, `SupersededDependencyIsNeverServed`).
- A cascade retires a file's recorded hash on a member if and only if all members agreed on that hash
  when it was read and the update took effect there (`TurnRetiresIff`); a healthy cascade leaves it
  redirected if and only if the last listed file it was outdated for is no longer at that hash
  (`CascadeRedirectsIff`). A late set that still names a retired hash is answered by the session alone,
  until its time to live has passed (`LateSetIsAnsweredIff`).
- The optimizer's result is within the budget if and only if the pack is returned unchanged, fits
  deduplicated, or the slack of the selection covers the warnings added after the probes and the digits
  of the total (`WithinBudgetIff`). It is at most 117 tokens over when the pack without items fits
  (`OvershootIsBounded`); when not even that fits, nothing is kept (`NothingFitsThenNothingIsKept`). For
  every fixed part of a pack some budget and item are overshot (`WarningsCanExceedTheBudget`).

Check everything with `dafny verify dfyconfig.toml`.

## Model

| member | source | states |
|---|---|---|
| ContinuationStore.Store.ClaimInbox | apps/runtime-worker/src/agent_continuation.rs:169-249 | the inbox claim: fresh insert, processed duplicate, poison on another payload, busy lease, takeover of an expired one |
| ContinuationStore.Store.LoadAndClaim | apps/runtime-worker/src/agent_continuation.rs:290-432 | the delivery claim against the joined rows: each early answer in source order, else the lease under this token and the snapshot from before it |
| ContinuationStore.Store.MarkDispatching | apps/runtime-worker/src/agent_continuation.rs:864-885 | one attempt more and the dispatch time, only for the lease owner and only from the claim snapshot |
| ContinuationStore.Store.MarkAccepted | apps/runtime-worker/src/agent_continuation.rs:887-900 | accepted once, under the lease, keeping an earlier acceptance time |
| ContinuationStore.Store.DeferDelivery | apps/runtime-worker/src/agent_continuation.rs:908-953 | delivery and inbox released together or not at all |
| ContinuationStore.Store.MarkDead | apps/runtime-worker/src/agent_continuation.rs:955-1010 | delivery, inbox, continuation and event in one all-or-nothing commit |
| ContinuationStore.Store.MarkAmbiguous | apps/runtime-worker/src/agent_continuation.rs:1012-1078 | the same for an ambiguous dispatch |
| ContinuationStore.Store.MarkObserved | apps/runtime-worker/src/agent_continuation.rs:1080-1148 | the same for an observed turn |
| ContinuationStore.Store.ReleaseAfterError | apps/runtime-worker/src/agent_continuation.rs:1150-1180 | an error releases what this token owns and nothing else |
| ContinuationStore.Store.UpdateInboxOwned | apps/runtime-worker/src/agent_continuation.rs:251-288 | the owner-guarded inbox update and its row count |
| ContinuationRuns.NextKeepsInv | apps/runtime-worker/src/agent_continuation.rs:1203-1733 | every step of every handler, with any fault, and every action around it keeps the global invariant |
| ContinuationRuns.AtMostOneDispatch | apps/runtime-worker/src/agent_continuation.rs:1377-1452 | in every reachable state posts of a delivery <= attempts <= 1, attempts = 1 exactly when the dispatch time is set, and at most one post per effect key |
| ContinuationRuns.NoUnrecordedPost | apps/runtime-worker/src/agent_continuation.rs:1433-1452 | every post belongs to a delivery whose dispatch was committed before, with its effect key |
| ContinuationRuns.BudgetNeverExhausted | apps/runtime-worker/src/agent_continuation.rs:1377-1432 | no reachable handler finds the attempt budget used up: that dead branch is unreachable |
| ContinuationRuns.UnidentifiedNeverTouched | apps/runtime-worker/src/agent_continuation.rs:365-373 | without prompt identity a delivery is never leased, attempted or posted, in any run |
| ContinuationRuns.SessionsAreExclusive | apps/runtime-worker/src/agent_continuation.rs:441-449 | two handlers are never inside one session at the same time |
| ContinuationRuns.NoWakeIsLost | apps/runtime-worker/src/agent_continuation.rs:1553-1733 | each published copy is queued, held by a live handler, acknowledged with a processed or dead inbox row, or dead-lettered with a dead one |
| ContinuationRuns.FinalRowsAreFrozen | apps/runtime-worker/src/agent_continuation.rs:375-396 | observed, ambiguous and released dead deliveries never change again in any field |
| ContinuationRuns.DispatchTimeIsPermanent | apps/runtime-worker/src/agent_continuation.rs:864-885 | no later run clears or moves a recorded dispatch time |
| ContinuationRuns.DeadMessagesStayDead | apps/runtime-worker/src/agent_continuation.rs:210-248 | a dead inbox row is dead in every later state |
| ContinuationRuns.ProcessedLeavesOnlyByAnotherPayload | apps/runtime-worker/src/agent_continuation.rs:210-248 | only a redelivery with another payload hash changes a processed inbox row |
| ContinuationDecisions.SupersededStepIsInert | apps/runtime-worker/src/agent_continuation.rs:864-1180 | a handler that lost its lease changes no delivery, continuation or event row; its multi-row commits roll back whole |
| ContinuationDecisions.LeaseFencing | apps/runtime-worker/src/agent_continuation.rs:397-431 | after a takeover this holds for every later step of the old handler in every run |
| ContinuationDecisions.ResolutionIsBounded | apps/runtime-worker/src/agent_continuation.rs:1281-1405 | every answer of the target leads to a terminal decision if and only if the delivery was dispatched at least both windows ago |
| ContinuationDecisions.OverdueResolvesInThreeSteps | apps/runtime-worker/src/agent_continuation.rs:1281-1405 | an overdue delivery in the hands of its lease holder is final within three of its steps, whatever the target answers |
| ContinuationDecisions.CancelledUnleasedIsNeverPosted | apps/runtime-worker/src/agent_continuation.rs:375-431 | a terminal, unleased, never attempted delivery is not posted in any later run |
| ContinuationFrozen.DeadRowIsFinalIff | apps/runtime-worker/src/agent_continuation.rs:864-1180 | in every reachable state a dead delivery row is unchanged by all later runs if and only if no live handler of it holds its lease with a guarded write still ahead |
| ContinuationPostRuns.NeverPostedIff | apps/runtime-worker/src/agent_continuation.rs:290-432 | in every reachable state a delivery not posted so far is never posted by any later run if and only if no handler stands at its post and it can be neither dispatched by its holder nor claimed again |
| ContinuationPosting.NothingOpens | apps/runtime-worker/src/agent_continuation.rs:1203-1551 | no action makes a delivery postable that was not |
| ContinuationPostRuns.CancelStopsThePostIff | apps/runtime-worker/src/agent_continuation.rs:375-431 | right after a cancellation: no later run posts the withdrawn delivery if and only if no handler was at its post and, if never attempted, its holder can neither dispatch it nor give it back while the continuation can be reopened |
| ContinuationPostRuns.AboutToDispatchIsReachable | apps/runtime-worker/src/agent_continuation.rs:1377-1432 | a run from the empty tables ends with a handler about to dispatch, holding the lease |
| ContinuationPostRuns.CancelledDeliveryIsPosted | apps/runtime-worker/src/agent_continuation.rs:1377-1452 | a reachable cancelled continuation whose dead delivery a later run posts |
| ContinuationDecisions.CancelCannotStopAStartedDispatch | apps/runtime-worker/src/agent_continuation.rs:864-885 | from every state in which the holder is about to dispatch, cancelling does not prevent the post |
| ExecutionStore.Store.ClaimExecution | apps/runtime-worker/src/agent_runtime.rs:724-792 | a claim needs a running run, a queued task and equal attempt, generation and fence; a missing descriptor rolls back |
| ExecutionStore.Store.PersistResult | apps/runtime-worker/src/agent_runtime.rs:1971-2039 | result row, task row and finished row in one fenced transaction |
| FencedExecution.ClaimedAtMostOnce | apps/runtime-worker/src/agent_runtime.rs:724-792 | over any redeliveries each generation of a task, and so each fenced identity, is claimed at most once |
| FencedExecution.ResultIffFinished | apps/runtime-worker/src/agent_runtime.rs:1999-2032 | a finished row exists exactly when a result row does, with its attempt and fence, and both tables hold claimed identities only |
| FencedExecution.FirstResultWins | apps/runtime-worker/src/agent_runtime.rs:1999-2005 | a committed result of an identity is never replaced or removed |
| FencedExecution.SupersededPersistIsInert | apps/runtime-worker/src/agent_runtime.rs:1982-1998 | after a newer dispatch, a commit of an older claim changes no database row, at any later time |
| OutboxRelay.SelectIsTheQuery | apps/runtime-worker/src/agent_runtime.rs:570-577 | the fetched rows are pending and unlocked, in order, at most the limit, and no earlier free row is passed over |
| OutboxRelay.EveryRowIsAccountedFor | apps/runtime-worker/src/agent_runtime.rs:610-641 | in every run a row is pending, published or dead-lettered; pending below the cap, dead-lettered exactly at it, published with a confirmed copy |
| OutboxRelay.RelaysShareNothing | apps/runtime-worker/src/agent_runtime.rs:570-577 | no row is in two open transactions, and open transactions hold pending rows only |
| OutboxRelay.SettledRowsAreFinal | apps/runtime-worker/src/agent_runtime.rs:556-659 | published and dead-lettered rows never change; counts and broker copies never shrink |
| OutboxRelay.RollbackOnlyAddsCopies | apps/runtime-worker/src/agent_runtime.rs:569-642 | a relay that dies after publishing anything leaves every row and lock as before; only broker copies are added |
| OutboxRelay.CommitAppliesTheBatch | apps/runtime-worker/src/agent_runtime.rs:569-642 | a committed transaction gives each fetched row exactly one attempt and touches no other row |
| OutboxRelay.HealthyBrokerPublishes | apps/runtime-worker/src/amqp.rs:20-46 | when the broker confirms everything, every fetched row is published by the commit |
| OutboxTables.RelayedAt | apps/runtime-worker/src/agent_runtime.rs:610-641 | a pass applies one attempt to each of its rows and none to the others |
| OutboxLoop.Relay.Publish | apps/runtime-worker/src/agent_runtime.rs:579-641 | the loop over the batch computes exactly that pass |
| OutboxLoop.Relay.Pace | apps/runtime-worker/src/agent_runtime.rs:643-657 | the next sleep and the idle back-off after a pass |
| OutboxLoop.BackoffIsExponential | apps/runtime-worker/src/agent_runtime.rs:558-561 | k empty passes give the base times 2 to the k, cut at the ceiling; 64-bit saturation never shows |
| ChangeSet.Collect | apps/runtime-worker/src/agent_runtime.rs:931-948 | strictly ascending paths, exactly those whose fingerprint differs, and applying the entries to the baseline gives the later snapshot |
| ChangeSet.PatchIsCorrect | apps/runtime-worker/src/agent_runtime.rs:939-948 | any list that describes two snapshots turns the first into the second |
| ChangeSet.InvertedPatchUndoes | apps/runtime-worker/src/agent_runtime.rs:942-948 | exchanging before and after in every entry undoes the patch |
| ChangeSet.ChangeSetIsUnique | apps/runtime-worker/src/agent_runtime.rs:931-938 | only one list describes two snapshots, so hash-map order cannot show |
| RespParser.ParseRedisReply | packages/context-semantic-cache/src/redis-resp.ts:22-62 | the cursor-moving parser computes the recursive grammar at any offset |
| RespParser.ParseStable | packages/context-semantic-cache/src/redis-resp.ts:22-62 | a parsed value, its end or a failure never changes when more bytes arrive |
| RespParser.ParseShift | packages/context-semantic-cache/src/redis-resp.ts:22-62 | parsing at an offset reads only the bytes from that offset on |
| RespPrinter.PrintThenParse | packages/context-semantic-cache/src/redis-resp.ts:22-62 | a printed reply is read back in the middle of any buffer, and exactly its bytes are consumed |
| RespPrinter.StrictPrefixIncomplete | packages/context-semantic-cache/src/redis-resp.ts:22-46 | every strict prefix of a printed reply parses as incomplete |
| RespPrinter.PrintIsPrefixFree | packages/context-semantic-cache/src/redis-resp.ts:22-62 | no printed reply is a prefix of another one |
| RespPrinter.EncodeCommand | packages/context-semantic-cache/src/redis-resp.ts:64-71 | the encoder prints the parts as an array of bulk strings |
| RespPrinter.CommandRoundTrip | packages/context-semantic-cache/src/redis-resp.ts:22-71 | encoder and parser undo each other at any offset, binary parts included, and strict prefixes are incomplete |
| RespPipeline.ChunkInvariance | packages/context-semantic-cache/src/redis-resp.ts:202-222 | every way of cutting a byte stream gives the same settled commands, leftover bytes or failure |
| RespPipeline.CommandsConserved | packages/context-semantic-cache/src/redis-resp.ts:188-233 | over any run the settled commands followed by the pending ones are the sent ones, in order |
| RespPipeline.RepliesMatchCommands | packages/context-semantic-cache/src/redis-resp.ts:202-233 | the i-th command sent gets the i-th reply of the stream, on every run of sends, chunks and closes |
| RespPipeline.PipelineRoundTrip | packages/context-semantic-cache/src/redis-resp.ts:202-222 | a printing server, any cutting of its bytes, and each command gets its own reply |
| RespClient.Connection.OnData | packages/context-semantic-cache/src/redis-resp.ts:202-222 | the loop over the buffer settles what the pipeline function settles |
| RespClient.Connection.OnClosed | packages/context-semantic-cache/src/redis-resp.ts:224-233 | every pending command is rejected, oldest first |
| RespClient.Connection.SendConnected | packages/context-semantic-cache/src/redis-resp.ts:188-200 | a command joins the end of the queue, or fails at once on a dead connection |
| CacheMember.SetEffect | packages/context-cache/src/redis-exact.ts:279-287 | a complete set stores the entry, registers and indexes every dependency and keeps old redirects |
| CacheMember.DeleteEffect | packages/context-cache/src/redis-exact.ts:302-313 | a complete delete removes the entry and its key from its own dependencies' index sets only |
| CacheMember.InvalidateEffect | packages/context-cache/src/redis-exact.ts:325-332 | a complete invalidation removes exactly the indexed entries, in whatever order they are listed |
| CacheMember.CutSetSurvivesIff | packages/context-cache/src/redis-exact.ts:279-287 | a set cut after any n commands survives a complete invalidation of a dependency if and only if the key was not indexed under it before and the cut came before that dependency's turn |
| CacheMember.CutSetEscapesInvalidation | packages/context-cache/src/redis-exact.ts:279-287 | the case of a cut right after SET: the entry survives unless the key was indexed before |
| CacheMember.RedirectPersists | packages/context-cache/src/redis-exact.ts:338-345 | no commands but HSET of a hash to itself end a redirect |
| CacheMember.ReadIsFreshIffServable | packages/context-cache/src/redis-exact.ts:188-208 | a reading is fresh exactly when the entry parses, has version 1, is alive and no dependency is redirected |
| ExactCache.RedisExactCache.Send | packages/context-cache/src/redis-exact.ts:128-162 | commands take effect up to the first failure, which opens the circuit; a full success closes it |
| ExactCache.RedisExactCache.Broadcast | packages/context-cache/src/redis-exact.ts:102-166 | every member with a closed circuit executes its own prefix; circuits move accordingly |
| ExactCache.RedisExactCache.Get | packages/context-cache/src/redis-exact.ts:210-257 | the lookup with its degraded, stale, mixed and divergent branches and the clean-up delete |
| ExactCache.RedisExactCache.Set | packages/context-cache/src/redis-exact.ts:264-293 | the write on every active member, and the fail-closed error |
| ExactCache.RedisExactCache.Remove | packages/context-cache/src/redis-exact.ts:295-317 | the delete on every active member, and whether one of them had the entry |
| ExactCache.RedisExactCache.InvalidateHash | packages/context-cache/src/redis-exact.ts:319-336 | the invalidation on every active member, and the largest number removed |
| ExactCache.RedisExactCache.UpdateHash | packages/context-cache/src/redis-exact.ts:338-349 | the redirect on every active member |
| ExactCache.RedisExactCache.GetFileHash | packages/context-cache/src/redis-exact.ts:364-383 | the recorded hash only when every member answers and all agree |
| ExactCache.RedisExactCache.RecordFileHash | packages/context-cache/src/redis-exact.ts:351-362 | the file hash on every active member |
| CacheFaults.HitIffConsensus | packages/context-cache/src/redis-exact.ts:210-257 | a lookup hits if and only if every configured member is reachable, answers, and would itself serve this very entry |
| CacheFaults.SupersededDependencyIsNeverServed | packages/context-cache/src/redis-exact.ts:188-208 | once an update of a hash reached one member, nothing depending on it is served after any run, with any faults, until it is redirected to itself |
| CacheRefinement.ReplicasRefineOneMember | packages/context-cache/src/redis-exact.ts:188-383 | when every command succeeds N replicas stay identical over any run, behave as one member, and the index stays complete |
| CacheRefinement.InvalidationIsComplete | packages/context-cache/src/redis-exact.ts:319-336 | after such a run an invalidation leaves no entry depending on the hash on any member |
| CacheRefinement.SetThenGetIff | packages/context-cache/src/redis-exact.ts:264-293 | a lookup after a set hits exactly when the entry is alive and no dependency had been redirected |
| CacheRefinement.HitsArePlainHits | packages/context-cache/src/redis-exact.ts:210-336 | over any run every hit is a hit of the plain map plus registry, with the same value |
| CacheRefinement.InvalidateAgreesIff | packages/context-cache/src/redis-exact.ts:319-336 | cache and plain map still agree after an invalidation exactly when no stray index entry names a live key |
| CacheRefinement.OthersAgree | packages/context-cache/src/redis-exact.ts:188-317 | every other operation keeps the agreement |
| CacheRefinement.PlainMapIsNotExact | packages/context-cache/src/redis-exact.ts:279-287 | two sets of one key with different dependencies and an invalidation of the first one: the plain map hits, the cache misses |
| CacheRefinement.PlainMapIsExact | packages/context-cache/src/redis-exact.ts:188-349 | over any run in which each key keeps its dependencies, every lookup answers as the plain map plus registry does |
| CacheRefinement.EvictionKeepsReplicasIff | packages/context-cache/src/redis-exact.ts:280-317 | after any servers expired an entry and a complete delete, the replicas are alike if and only if none or all had expired it, or no dependency indexes the key |
| CacheRefinement.EvictionSplitsReplicas | packages/context-cache/src/redis-exact.ts:280-317 | so an expired, indexed entry dropped by one of several servers splits the replicas |
| SessionCache.L1SessionCache.Get | packages/context-cache/src/l1-session.ts:17-25 | only live entries are answered and an expired one is forgotten |
| SessionCache.L1SessionCache.InvalidateHash | packages/context-cache/src/l1-session.ts:31-40 | exactly the entries that depend on the hash go, and they are counted |
| TieredCache.TieredContextCache.Get | packages/context-cache/src/tiered-cache.ts:17-39 | both tiers and the answer move exactly as the specification says: session hit, miss, stale answer deleted from both tiers, or promotion with the session's own time to live; every counter is exact |
| TieredCache.AnsweredIff | packages/context-cache/src/tiered-cache.ts:17-39 | a value is answered if and only if a live session entry holds it or all members agree on an entry with it |
| TieredRuns.RetiredHashIsNeverServed | packages/context-cache/src/tiered-cache.ts:17-67 | once no session entry names a hash and one member redirects it, no run of both tiers under any faults answers from it, unless a set names it or it is declared current again |
| TieredRuns.GoneUntilStored | packages/context-cache/src/tiered-cache.ts:17-67 | a key lost by the session and by one member misses until somebody stores it |
| TieredRuns.LateSetIsAnsweredIff | packages/context-cache/src/tiered-cache.ts:41-47 | a set that names a retired hash is answered exactly while its session entry lives, and only if the replicas accepted it |
| TieredCache.TieredContextCache.Set | packages/context-cache/src/tiered-cache.ts:41-47 | both tiers move as the specification says, the time to live defaulting per tier; the session keeps nothing the replicas refused |
| TieredCache.TieredContextCache.Remove | packages/context-cache/src/tiered-cache.ts:49-53 | both tiers lose the key and the invalidations are counted per tier |
| TieredCache.TieredContextCache.InvalidateHash | packages/context-cache/src/tiered-cache.ts:55-59 | both tiers lose the dependents and the removed entries are counted |
| Cascade.AffectedFiles | packages/invalidation/src/cascade.ts:39-50 | the changed file first, then every traced file exactly once |
| Cascade.InvalidateCascade | packages/invalidation/src/cascade.ts:52-75 | under any network, both tiers move by the listed turns: each affected file's hash is read, forgotten in both tiers, redirected and recorded, up to the first call that throws, and the count adds up what every call dropped |
| CascadeGuarantees.HealthyCascade | packages/invalidation/src/cascade.ts:52-75 | all members reachable and identical: the cascade never throws, every replica ends as the file-by-file specification says, the session holds nothing built on a recorded hash, and the count is what both tiers lost |
| CascadeGuarantees.CascadeClears | packages/invalidation/src/cascade.ts:52-70 | every listed file's recorded hash is its current one, no other changes, and no entry depending on a listed file's old recorded hash is left |
| CascadeGuarantees.NothingOutdatedIsAnswered | packages/invalidation/src/cascade.ts:52-70 | after a healthy cascade no answer of either tier, whatever the network, comes from an entry built on a hash recorded for a listed file |
| CascadeGuarantees.OutdatedKeyMisses | packages/invalidation/src/cascade.ts:52-70 | a key whose entries in both tiers were built on such hashes misses in every later run, under any faults, until it is stored again |
| CascadeGuarantees.CascadeRedirectsIff | packages/invalidation/src/cascade.ts:52-70 | a healthy cascade leaves a hash redirected if and only if the last listed file it was outdated for is no longer at that hash |
| CascadeGuarantees.CascadeRetiresForGood | packages/invalidation/src/cascade.ts:52-70 | after a healthy cascade nothing built on a changed file's recorded hash is answered by either tier in any later run, unless a set names the hash or it is declared current again |
| CascadeGuarantees.TurnRetiresIff | packages/invalidation/src/cascade.ts:52-70 | under any faults a file's turn leaves a hash redirected on a member if and only if it was before, or all members agreed it was recorded and the update took effect there |
| CascadeGuarantees.ReachedUpdateRetiresForGood | packages/invalidation/src/cascade.ts:52-70 | under any faults, an update that reached one member during a cascade rules out answers built on the old hash by either tier in every later run |
| BudgetOptimizer.Deduplicate | packages/context-pack/src/budget-optimizer.ts:176-194 | the first candidate of each diversity key is kept, in order, and the rest are counted |
| BudgetOptimizer.BestIsBest | packages/context-pack/src/budget-optimizer.ts:233-243 | the scan picks the first of the highest re-ranked scores |
| BudgetOptimizer.Select | packages/context-pack/src/budget-optimizer.ts:224-257 | the loop computes the greedy selection, its payload and the omitted sections |
| BudgetOptimizer.Optimize | packages/context-pack/src/budget-optimizer.ts:210-269 | the whole optimizer computes the specified pack |
| BudgetGuarantees.KeptAndOmittedArePartition | packages/context-pack/src/budget-optimizer.ts:224-257 | the deduplicated candidates are split into kept and omitted without loss or repetition |
| BudgetGuarantees.NothingIsLost | packages/context-pack/src/budget-optimizer.ts:210-269 | each deduplicated item is in its section of the result, or that section's warning is |
| BudgetGuarantees.WarningsAreExact | packages/context-pack/src/budget-optimizer.ts:259-263 | a section is reported if and only if one of its items was omitted |
| BudgetGuarantees.KeptItemsFit | packages/context-pack/src/budget-optimizer.ts:246-254 | if anything was kept, the pack stamped with the base warnings is within the budget |
| BudgetGuarantees.SelectionIsMaximal | packages/context-pack/src/budget-optimizer.ts:244-257 | no omitted item could be added to the final selection and still fit |
| ContextPack.FitsDownwards | packages/context-pack/src/budget-optimizer.ts:196-208 | a longer payload, with its larger total and its digits, never fits where a shorter one does not |
| BudgetGuarantees.ResultHasNoDuplicates | packages/context-pack/src/budget-optimizer.ts:176-194 | the result repeats no diversity key |
| BudgetGuarantees.OptimizingTwiceChangesNothing | packages/context-pack/src/budget-optimizer.ts:210-214 | optimizing a result that is within the budget returns it unchanged |
| BudgetBound.WithinBudgetIff | packages/context-pack/src/budget-optimizer.ts:210-269 | for every pack and budget the result is within the budget if and only if it is untouched, fits deduplicated, or the selection's slack covers the explicit length of the warnings added after the probes and the total's digits |
| BudgetBound.OvershootIsBounded | packages/context-pack/src/budget-optimizer.ts:259-268 | when the pack without items fits, the result is at most 117 tokens over the budget, whatever was warned of |
| BudgetBound.NothingFitsThenNothingIsKept | packages/context-pack/src/budget-optimizer.ts:244-268 | when not even the pack without items fits, nothing is kept and the result is that empty pack with its warnings, over the budget by at most 117 tokens more than the empty pack is |
| BudgetBound.PackingOmits | packages/context-pack/src/budget-optimizer.ts:224-263 | a pack with items that does not fit deduplicated loses at least one |
| BudgetBound.WarningsCanExceedTheBudget | packages/context-pack/src/budget-optimizer.ts:259-268 | for every length of the fixed part there are a budget that admits the pack without items and an item for which the result is over it |
| MirrorMerge.Merge | packages/context-semantic-cache/src/redundant.ts:108-136 | the result is a merge of everything read: sorted, one best record per candidate, at most max(1, trunc topK), and nothing left out sorts before a returned record |
| MirrorMerge.Query | packages/context-semantic-cache/src/redundant.ts:167-189 | unavailable exactly when no member answered, else the merge of the answers |
| MirrorMerge.MergedIdsAreDistinct | packages/context-semantic-cache/src/redundant.ts:112-131 | the ids of a merge are distinct |
| MirrorMerge.MergeIsUnique | packages/context-semantic-cache/src/redundant.ts:132-135 | the set of ranks read determines the merge |
| MirrorMerge.OrderDoesNotShow | packages/context-semantic-cache/src/redundant.ts:108-136 | the order of members and of records within them does not change the (distance, creation time, id) sequence |
| MemoryText.RunsKeepTheText | packages/project-memory/src/project-memory.ts:22-28 | the tokens are non-empty and hold exactly the word characters of the text, in order |
| MemoryText.RunsSplit | packages/project-memory/src/project-memory.ts:22-28 | a separator splits a text into two that are tokenized on their own |
| MemoryText.MatchImpliesOverlap | packages/project-memory/src/project-memory.ts:30-68 | text that matches a query phrase shares a stored token with the query |
| MemoryText.HasPhrase | packages/project-memory/src/project-memory.ts:58-67 | the scan finds a phrase exactly when it is a contiguous part of the tokens |
| MemoryText.MatchesLegacyFts | packages/project-memory/src/project-memory.ts:55-68 | a text is accepted exactly when some phrase occurs in it |
| MemorySearch.IndexedSearchIsFullScan | packages/project-memory/src/project-memory.ts:204-231 | prefilter, sort and match give the rows of phrase-matching every row, in the same order, for every query, with and without a limit |
| MemorySearch.ProjectMemory.StoreDecision | packages/project-memory/src/project-memory.ts:160-185 | a row keeps the canonical tokens of its own content |
| MemorySearch.ProjectMemory.GetDecisions | packages/project-memory/src/project-memory.ts:204-231 | the search returns exactly the full scan |

## Left out

- Transports and processes: HTTP, AMQP, SQL, sockets, TLS, process spawning, files, logging; a transaction or a Redis command is one atomic step that may fail.
- Timestamps are integer milliseconds, not RFC 3339 texts; a timestamp that does not parse occurs only as the absent creation time of the mirror merge.
- Continuation messages with an invalid envelope, which are rejected before any table is read; the columns `last_error`, `completed_at` and `updated_at`; leaked advisory locks after a failed unlock.
- The functions that compute the target's answer (`target_message_state`, `continuation_turn_state_from_messages`): every answer is possible in the model.
- A cancelled continuation's status can later be overwritten by a handler that still holds the delivery; no guarantee about that status is stated.
- Workspace cleanup, result files on disk (written before the fence is checked) and descriptor validation; only database rows are fenced.
- Outbox rows deleted with their run or task by the database's cascade.
- RESP: text is kept as bytes instead of decoded UTF-8; JavaScript's `Number()` is a parameter, so its lax forms are covered without being spelled out, and the round trips assume only that it reads canonical decimals of safe integers; the recursion depth of the JavaScript stack; reconnecting, where the close of an old socket can reset a newer connection.
- Exact cache: one clock value per operation; an operation's commands on a member are not interleaved with another operation's on that member; a circuit shared through an external availability object.
- TieredCache.TieredContextCache.Get: does not bound an answer's age by the time to live of the exact entry, because promotion into the session uses the session's own default.
- The cascade is modelled with both tiers present; the symbol search and the traces are inputs.
- An entry whose dependencies are all current survives the cascade in its tier although its namesake in the other tier was outdated, so a lookup of such a key can still be answered, never from an outdated hash.
- Budget optimizer: scores are exact reals, not floating point; serialized sizes of items are inputs; characters that need escapes count as their serialized length; the budget is an integer; freshness is taken at one instant.
- Mirror merge: collation order is a total order on ids without ties, distances are real numbers, and payloads that tie on creation time and distance may depend on the order of members.
- Memory search: Unicode normalization and the class of word characters are parameters, row ids are unique ranks, and the task history search, which is the same code over another table, is not repeated; revision counters.
- Semantic reuse in the context pack builder, task analysis, static artifact scoring, summaries, adapters, endpoint configuration and statistics, which would add heuristics or easy members.
