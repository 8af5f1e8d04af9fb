# DeepDive backend: verified model

DeepDive's backend is a set of Kafka workers and an HTTP API that advance one shared Postgres state.
This project models that core in Dafny and proves what holds in every interleaving of the workers,
with repeated, stale and crashed calls included.

A transaction is one atomic step. Rows live in sequences and a row's id is its position, so ids are
fresh; tokens are drawn fresh; leases use one clock; hashes are uninterpreted functions. Where the code
updates state in place, a class carries the same fields and each of its methods is proved to have
exactly the effect of the matching step. A run is any sequence of steps, so a theorem about runs is a
theorem about every order in which the transactions can commit.

## Layout

| files | part of the system |
|---|---|
| Platform, PlatformDb | shared tables and the transactions of API, analysis, snapshot, agent and execution workers |
| Agreement, Endings, Fencing, CallLease, Join, Causes, Cancelling | what every run of those transactions keeps |
| Lifecycle, ToolEvents, ToolAnswers, JoinProgress | how one analysis, one tool call and one turn get through |
| AgentTurns, AgentLimitRuns | the handlers of one agent, their turn and tool-call limits |
| Batch, BatchDb, BatchWorld, BatchProgress | batch scheduler, alone and together with the analyses it dispatches |
| EventLease, Delivery, ConsumerLoop | event claims, Kafka offsets, retries and dead letters |
| StreamLog, StreamPoll | numbered event log of an analysis and its resumable reader |
| RepoPath, PathLaws, PrefixCache, CacheSteps, CacheRuns, SourceCache, LikePattern | source cache and path queries |
| ContextItems | replayed conversation |
| DocumentStore, DocumentHistory, DocumentTree, TreeLaws | versioned documents and their tree |
| RwLock | read/write lock of the execution worker |

## Findings

Places where the code does less than its names or comments suggest. Each is proved with a run or input
that shows it and the exact condition under which the expected property holds.

- Three ways in which the end of an analysis never reaches the scheduler: a snapshot failure writes
  SnapshotFailed, which no worker consumes (backend/events/routing.py:11-17); an agent handler that dies
  between `fail_analysis` and its AnalysisFailed event never writes it, because the redelivered event
  finds the session ended (backend/agent/handler.py:65-66); and a terminal event whose last scheduler
  attempt raises goes to deepdive.dlq, which no worker reads (backend/workers/batch_scheduler_runtime.py:61-85,
  backend/events/consumer.py:69-79). `BatchWorld.BatchCanEndIff`: a batch can still end if and only if
  none of its open items was hit in one of these ways; `BatchWorld.SnapshotFailureStalls`,
  `BatchWorld.LostFailureStalls` and `BatchWorld.DeadLetterStalls` reach all three.
- `write_file` goes through `<path>.tmp`, a name that all workers share and that a repository file may
  have, and a search_text path_prefix made of "." components is recorded as the empty prefix with nothing
  written. `CacheRuns.CacheIsSoundIff` gives the condition; `CacheRuns.ClashIsUnsound`,
  `CacheRuns.SharedWritersAreUnsound`, `CacheRuns.DotsAreUnsound` and, without any concurrency,
  `CacheRuns.RewriteLosesFile` the runs.
- `max_turns` is tested when a turn starts but not when an interrupted one is resumed:
  `AgentTurns.TurnLimitKeptIff`, `AgentLimitRuns.ResumedTurnExceedsLimit`.
- Tool-call events are keyed by tool call (backend/events/routing.py:60-70), so two handlers of one agent
  can pass the same check: `AgentTurns.ToolLimitKeptIff`, `AgentLimitRuns.TwoHandlersExceedLimits`.
- A stream session opened after the end asks for at most two pages of 1000 events:
  `StreamPoll.FinishedSessionIsCompleteIff`, `StreamPoll.LongLogIsCutShort`.
- A task cancelled while it waits to give the read/write lock back leaks it: `RwLock.CountsExactIff`,
  `RwLock.LeakBlocksForever`.
- `fail_analysis` never compares its two ids: `Agreement.FailAnalysisAgreesIff`,
  `Agreement.MisaddressedFailBreaksAgreement`. Every caller in the repository takes both from one session.
- A finalize without a claim owner rewrites an already answered tool call:
  `Fencing.EndedCallRewrittenIff`. The execution handler always names an owner.
- A turn that is resumed while its first handler still works on it, after that handler's event claim
  lapsed, can be committed twice and raises turn_count twice: `AgentTurns.TurnCountExactIff`,
  `AgentLimitRuns.LapsedClaimCountsTwice`.
- Offsets are safe only because deferral seeks back: `Delivery.OffsetsSafeIff`.

## Model

| member | source | states |
|---|---|---|
| Agreement.RunKeepsAgreement | backend/agent/repository.py:351-363 | in every run the analysis is live, completed, failed or cancelled exactly as its session row says |
| Agreement.StepKeepsAgreement | backend/snapshot/repository.py:253-340 | each transaction of API and workers keeps the two rows in agreement |
| Agreement.FailAnalysisAgreesIff | backend/agent/repository.py:1049-1082 | failing a pair of ids keeps agreement iff the ids belong together or neither row is live |
| Agreement.MisaddressedFailBreaksAgreement | backend/agent/repository.py:1049-1082 | concrete pair of analyses whose rows disagree after a failure with foreign ids |
| Agreement.StatusesMoveForward | backend/workers/analysis.py:33-138 | over any run a status only moves forward in queued, snapshotting, running, cancelling, terminal; terminal statuses absorb and cancelling only becomes cancelled |
| Agreement.LivePairCanEnd | backend/agent/repository.py:740-779 | after any run a live session can be completed, failed or cancelled with effect on both rows |
| Lifecycle.Creates | backend/api/postgres_analysis_service.py:53-209 | a new analysis is queued with a waiting session, and requested unless it belongs to a batch |
| Lifecycle.TakesUp | backend/workers/analysis.py:28-97 | a queued analysis is taken up once, with SnapshotRequested; any other is left alone |
| Lifecycle.GetsSnapshot | backend/snapshot/repository.py:253-293 | a live session gets the snapshot and waits for its first turn, its analysis runs, and SnapshotReady follows |
| Lifecycle.LosesSnapshot | backend/snapshot/repository.py:295-348 | a snapshot failure fails both rows of a live analysis and tells it with SnapshotFailed |
| Lifecycle.AnswersAndEnds | backend/agent/repository.py:719-831 | a final answer completes turn, session and analysis together and counts the turn, or nothing when the session has ended |
| Lifecycle.DirectAnalysisCompletes | backend/agent/repository.py:719-831 | from every state in which rows agree, a directly created analysis can be completed in one turn with exactly its four events and no change to any other |
| Endings.EndingsExact | backend/agent/repository.py:756-829 | in every run at most one terminal event per analysis exists and it tells the stored status; every failure has its event, a handler that owes it, a handler that died owing it, or SnapshotFailed; every waiting status has the event that drives it or waits for its batch |
| Endings.EndedEventIsFinal | backend/workers/analysis.py:104-171 | the status told by a terminal event is the analysis status for ever after |
| Endings.NothingAdvancesAfterEnd | backend/agent/repository.py:859-877 | once an analysis is cancelling or terminal no tool call of its agent is inserted and turn_count stays, whatever follows |
| Fencing.EndedCallIsFinal | backend/execution/repository.py:531-577 | with named holders no column of a terminal tool call ever changes again |
| Fencing.EndsAtMostOnce | backend/execution/repository.py:445-492 | over any run a tool call makes exactly one terminal transition if it is terminal and none otherwise |
| Fencing.EndedCallRewrittenIff | backend/execution/repository.py:531-577 | a finalize changes a terminal row iff it is answered and no holder is named, and then the new status and result replace the old with a second event |
| Fencing.LostForGood | backend/execution/repository.py:208-254 | a drawn token that does not own a call never owns it again |
| Fencing.TakenOverWorkerIsFenced | backend/execution/repository.py:208-299 | after a takeover the old worker can never renew, release, finalize or cancel the call |
| Fencing.HolderFinalizesOnce | backend/execution/repository.py:445-492 | the holder's finalize stores its result with the event, and its token is powerless afterwards |
| CallLease.HolderKeepsCall | backend/execution/repository.py:208-279 | over any run in which no claim comes more than 900 seconds after the latest claim or renewal of the holder, and the holder neither ends the call nor is cancelled, the row keeps its owner and expires 900 seconds after that beat |
| CallLease.NobodyElseClaimsCall | backend/execution/repository.py:221-232 | every claim of the call made in that time changes nothing |
| CallLease.LapsedCallIsTaken | backend/execution/repository.py:221-232 | a fresh claim of a running call succeeds iff its lease is over, and then the old holder is powerless for good |
| CallLease.LeaseLastsFifteenMinutes | backend/execution/repository.py:200-232 | claimed at time t, refused to others at t + 900 seconds, given to them one second later |
| CallLease.OpenCallIsTaken | backend/execution/repository.py:208-299 | a queued or released call goes to the first claim, which changes status, owner and expiry of that row alone |
| CallLease.RunKeepsExpiries | backend/execution/repository.py:281-299 | in every run a tool call has an expiry exactly while it is running |
| CallLease.HolderCancelsIff | backend/workers/execution.py:172-177 | the holder ends its call as cancelled, with result and event, iff the analysis is cancelling or cancelled |
| Cancelling.CancelledHasNoOpenCall | backend/workers/analysis.py:99-171 | in every caused run an analysis that is cancelling or cancelled has no queued or running tool call |
| Cancelling.CancelEffect | backend/api/postgres_analysis_service.py:556-635 | both cancels end exactly the open calls and the live session of their analysis, and leave every other row as it is |
| ToolEvents.RequestIsTold | backend/agent/repository.py:669-716 | event k of a committed turn names the row of its call id and says whether there is work to do |
| ToolEvents.RunKeepsTold | backend/agent/repository.py:611-717 | in every run each queued or running tool call has its ToolCallRequested event and each answered one the event that wakes the agent |
| ToolEvents.ReannouncedAsItStands | backend/workers/execution.py:383-417 | a redelivered request is told again what it has become and changes no row |
| Join.NoLostWakeup | backend/agent/handler.py:741-780 | for any number of handlers working in several transactions, with redelivery and deaths between any two: when all calls of a turn are answered, the handling of their events has come to an end and the analysis has not ended, some handler has read a list with one output per call, in creation order, and a continuation turn was started for one of the calls |
| Join.RunKeepsJoinInv | backend/agent/handler.py:59-140 | in every such run a turn whose calls have all ended belongs to an ended analysis, or its full list was read or an open event will have it read, and a continuation turn was started or an open event will start one |
| Join.ReadyListIsStable | backend/agent/repository.py:975-1017 | a ready list of outputs never changes until the turn is committed again |
| JoinProgress.LoneHandlerDecides | backend/agent/handler.py:59-140 | what a handler alone makes of one event, as the exact state it leaves: nothing to do, analysis failed over a limit, call or turn not answered, or list read and continuation started |
| JoinProgress.OnlyDueStepsAct | backend/agent/handler.py:59-140 | a handler skips none of its reads |
| JoinProgress.AnsweredTurnCanGoOn | backend/agent/handler.py:741-780 | from every reached state in which all calls of a turn are answered and the analysis is live, handlers can finish, and then the full list was read and a continuation started |
| ToolAnswers.FinalizedResultIsListed | backend/agent/repository.py:975-1017 | the result that the holder of a call stores is the text of its one entry in every later ready list, "{}" if it is empty; a list is ready iff no call of the turn is queued or running |
| ToolAnswers.ReusedResultIsListed | backend/agent/repository.py:879-909 | so is the stored result that a request reuses |
| ToolAnswers.StoredResultIsListed | backend/agent/repository.py:994-1016 | lists are in creation order, with exactly one entry per answered call |
| AgentTurns.TurnCountIsExact | backend/agent/repository.py:452-466 | with any number of handlers, retries and crashes turn_count is the number of completed turns, as long as no turn is taken up while another handler works on it |
| AgentTurns.TurnCountExactIff | backend/agent/repository.py:391-466 | in every run, claims lapsed or not, turn_count exceeds the number of completed turns by the number of times a turn completed before is committed or failed again, so it is exact iff that never happens |
| AgentTurns.CommitCountsIff | backend/agent/repository.py:627-647 | committing a turn keeps the count exact iff the turn was not completed before |
| AgentTurns.LookDecides | backend/agent/handler.py:72-113 | the reads before a new turn: analysis failed with turn_count at max_turns or max_tool_calls calls stored, nothing while a call of the turn is open, otherwise the turn goes on to start |
| AgentTurns.BeginDecides | backend/agent/repository.py:90-124 | starting inserts one open turn under the key of its trigger, or nothing when the key has one |
| AgentTurns.CheckDecides | backend/agent/handler.py:351-361 | an answer with n calls is cleared iff the session is live and stored calls plus n are within a positive max_tool_calls |
| AgentTurns.TriggerKeepsItsTurn | backend/agent/repository.py:90-124 | over any run each trigger keeps the one turn it started |
| AgentTurns.StartsOwnTurns | backend/agent/repository.py:90-124 | turn rows of the agent come from its handlers only, one with each start |
| AgentTurns.LoneChecksKeepToolLimit | backend/agent/handler.py:351-361 | a positive max_tool_calls is never exceeded in every run in which at most one handler is between its check and its commit |
| AgentTurns.ToolLimitKeptIff | backend/agent/handler.py:351-361 | however the handlers past their check commit, the limit is kept iff stored and reserved calls together are within it |
| AgentTurns.TurnLimitKeptIff | backend/agent/handler.py:72-113 | over a whole run with one event at a time turn_count stays within max_turns iff no turn is committed that was resumed with the count at the limit |
| AgentTurns.LateComesFromResume | backend/agent/handler.py:77-92 | a handler works on such a turn iff it resumed it when the count had reached max_turns; a new turn never is one |
| AgentLimitRuns.TwoHandlersExceedLimits | backend/events/routing.py:60-70 | run in which two tool events handled at once give four tool calls with max_tool_calls 3 and three turns with max_turns 2 |
| AgentLimitRuns.ResumedTurnExceedsLimit | backend/agent/handler.py:77-92 | run with one event at a time, max_turns 2 and three completed turns: the first tool event is interrupted and delivered again after the second |
| AgentLimitRuns.LapsedClaimCountsTwice | backend/agent/handler.py:77-92 | run in which a second handler resumes a turn that the first then commits: one completed turn, turn_count 2 |
| PlatformDb.Tables.Create | backend/api/postgres_analysis_service.py:53-209 | a fresh id with its queued analysis and session in one step, and AnalysisRequested iff it is not part of a batch |
| PlatformDb.Tables.InsertTurn | backend/agent/repository.py:90-124 | appends one open turn of the agent under a fresh id |
| PlatformDb.Tables.HandleCancel | backend/workers/analysis.py:99-171 | net effect of the cancel step on analysis, sessions, open tool calls and outbox; nothing for terminal analyses |
| PlatformDb.Tables.Cancel | backend/api/postgres_analysis_service.py:556-635 | net effect of the API cancel step; returns the stored status, or none for an unknown id |
| PlatformDb.Tables.Associate | backend/snapshot/repository.py:253-293 | net effect of attaching a snapshot; true iff the session is live and belongs to the analysis |
| PlatformDb.Tables.MarkSnapshotFailed | backend/snapshot/repository.py:295-348 | net effect of a snapshot failure; true iff the analysis was live |
| PlatformDb.Tables.Fail | backend/agent/repository.py:1049-1082 | net effect of the two guarded updates; true iff the analysis was live, and then the caller owes the event |
| PlatformDb.Tables.InsertRows | backend/agent/repository.py:879-909 | the insert loop under the unique index yields the rows of the specification and the id each request resolves to |
| PlatformDb.Tables.CompleteTurnWithTools | backend/agent/repository.py:611-717 | all or nothing: turn completed, count raised, calls inserted and one event per request carrying the resolved row id, iff the session can continue |
| PlatformDb.Tables.CompleteTurnWithAnswer | backend/agent/repository.py:719-831 | turn, session and analysis completed with AnalysisCompleted, iff the session can continue |
| PlatformDb.Tables.Claim | backend/execution/repository.py:208-254 | claims iff queued or expired, and the row is then held by the new token |
| PlatformDb.Tables.Renew | backend/execution/repository.py:256-279 | extends the lease iff the token holds the running row |
| PlatformDb.Tables.Release | backend/execution/repository.py:281-299 | requeues the call iff the token holds the running row |
| PlatformDb.Tables.Finalize | backend/execution/repository.py:445-492 | stores status and result, clears the claim and writes the event iff the guard holds |
| Causes.NothingBeforeRequest | backend/workers/analysis.py:28-97 | in every run in which workers act on events that were written, an analysis that was not requested is queued, cancelling or cancelled |
| Batch.RunKeepsBatchInv | backend/workers/batch_scheduler.py:33-107 | for every order and repetition of events: counters exact, active within max_parallel, batch terminal iff its items are, dispatch in sort order and at most once, one request per dispatched item |
| Batch.ScheduleFills | backend/workers/batch_scheduler.py:67-107 | after a scheduling call a batch with pending items has exactly max_parallel active |
| Batch.ClaimCounts | backend/workers/batch_scheduler.py:124-162 | claiming moves min(limit, pending) items from pending to active and leaves the other counts |
| Batch.BatchReport | backend/workers/batch_scheduler.py:164-200 | counters sum to total_count; the batch has ended iff every item has; failed iff some item failed |
| Batch.StepEndsOne | backend/workers/batch_scheduler.py:33-65 | a terminal event ends exactly one more item iff its item exists and is open; repeats and late conflicts change nothing |
| Batch.EndsAfterTotalEvents | backend/workers/batch_scheduler.py:33-65 | the batch ends with exactly its total_count-th effective terminal event |
| Batch.ActiveItemCanEnd | backend/workers/batch_scheduler.py:38-65 | a running batch always has a dispatched active item whose terminal event is effective |
| Batch.RunKeepsSubmission | backend/api/postgres_analysis_service.py:323-384 | over every run max_parallel, total_count and the analyses of the items in their order are the submitted ones |
| Batch.SubmittedLimitIsUsed | backend/workers/batch_scheduler.py:67-107 | after any run the submitted max_parallel bounds the active items, and after a scheduling call with items left exactly that many are active |
| BatchDb.Scheduler.constructor | backend/api/postgres_analysis_service.py:323-384 | the created rows are the initial batch: all items pending in submission order |
| BatchDb.Scheduler.RefreshCounts | backend/workers/batch_scheduler.py:164-200 | one pass stores the true counts and the status they imply |
| BatchDb.Scheduler.ClaimPending | backend/workers/batch_scheduler.py:124-162 | dispatches exactly the first pending items up to the limit and returns them in order |
| BatchDb.Scheduler.ScheduleBatch | backend/workers/batch_scheduler.py:67-107 | net effect of one scheduling step, early exits included |
| BatchDb.Scheduler.HandleTerminal | backend/workers/batch_scheduler.py:33-65 | net effect of one terminal event followed by scheduling |
| BatchWorld.EndedItemsAreTruthful | backend/workers/batch_scheduler.py:33-107 | in every run of tables, scheduler and deliveries a terminal item has the status of its analysis, and exactly the dispatched items have their analysis requested |
| BatchWorld.PendingItemIsUntouched | backend/workers/batch_scheduler.py:124-162 | the analysis of a pending item is queued, cancelling or cancelled |
| BatchWorld.InProgressIsBounded | backend/workers/batch_scheduler.py:67-85 | at most max_parallel analyses of the batch are snapshotting or running |
| BatchWorld.SubmittedLimitHolds | backend/workers/batch_scheduler.py:67-85 | in every run from a submission at most the submitted max_parallel of the submitted analyses are snapshotting or running |
| BatchProgress.RunFollows | backend/workers/analysis.py:53-68 | in every run a pending or dispatched item was not taken up by the analysis worker yet, a snapshotting one was, and none says running |
| BatchWorld.StallIsForever | backend/events/routing.py:11-17 | an ending that no event will tell the scheduler keeps the batch open in every continuation |
| BatchWorld.BatchCanEndIff | backend/agent/handler.py:1232-1271 | some continuation of real moves ends the batch iff no open item failed in the snapshot worker, lost its failure event or had its terminal event dead-lettered, and then also without the event of its submission |
| BatchWorld.SnapshotFailureStalls | backend/snapshot/repository.py:295-348 | run from submission to a batch stalled by a snapshot failure |
| BatchWorld.LostFailureStalls | backend/agent/handler.py:1232-1271 | run from submission to a batch stalled by a handler that dies between fail_analysis and its event |
| BatchWorld.DeadLetterStalls | backend/events/consumer.py:69-79 | run from submission to a batch stalled by a terminal event that the scheduler's consumer dead-letters |
| BatchWorld.EndedBatchIsTruthful | backend/workers/batch_scheduler.py:164-200 | an ended batch has every analysis ended and is failed iff one of them failed |
| EventLease.ProcessedOnceForGood | backend/events/repositories.py:98-157 | in every run a processed row is inserted at most once per event and consumer and never removed |
| EventLease.HolderKeepsLease | backend/events/repositories.py:159-216 | while claim and renewals are never more than the TTL apart the claim stays with its token, expiring TTL after the last beat |
| EventLease.NobodyElseClaims | backend/events/repositories.py:159-190 | during that time every other claim attempt changes nothing |
| EventLease.LapsedLeaseIsTaken | backend/events/repositories.py:159-190 | a rival's claim succeeds iff the lease has expired, and then the old token is out for good |
| EventLease.StaleHolderIsHarmless | backend/events/repositories.py:98-242 | a token that lost its claim can never renew, release or mark, and its mark reports success iff the row already exists |
| EventLease.MarkSaysWhatItDid | backend/events/repositories.py:98-157 | an accepted mark leaves the row and takes the claim of its caller only, a refused one changes nothing; when it is accepted |
| EventLease.ReleaseGivesBackOwn | backend/events/repositories.py:218-242 | a release with a token leaves every other holding as it was, its caller without the claim, and the key free at once if the caller held it |
| EventLease.ReleaseUndoesClaim | backend/events/repositories.py:159-242 | claiming a free key and releasing it leaves no claim on it and all others as they were |
| EventLease.ProcessedEvents.MarkProcessed | backend/events/repositories.py:98-157 | inserts only with the current token, reports success iff inserted or already processed, deletes only the caller's claim |
| EventLease.ProcessedEvents.ClaimProcessing | backend/events/repositories.py:159-190 | takes the claim iff it is absent or expired |
| EventLease.ProcessedEvents.RenewClaim | backend/events/repositories.py:192-216 | extends the claim iff the token is current |
| Delivery.CommittedIsAccounted | backend/events/consumer.py:52-85 | with seek-back, in every run with crashes and restarts, each message below a committed offset is processed, republished with the next attempt within the limit, or dead-lettered |
| Delivery.OffsetsSafeIff | backend/events/adapters.py:66-72 | committed offsets cover only accounted messages in all runs iff the consumer seeks back |
| Delivery.RunKeepsLineage | backend/events/consumer.py:69-79 | every logged message is a first attempt or has its predecessor logged and stays within max_attempts |
| Delivery.LineageIsComplete | backend/events/consumer.py:69-79 | a message at attempt n has attempts 1..n of its event in the logs |
| Delivery.DeadHadAllAttempts | backend/events/consumer.py:69-79 | in every run a dead-lettered message is at attempt max_attempts with attempts 1 to max_attempts in the logs, or at attempt 1 without a retry publisher, and then only first attempts are logged |
| Delivery.DrainedMeansResolved | backend/events/consumer.py:138-165 | when all logs are committed to their end every event was processed or its lineage ended in the dead-letter topic |
| ConsumerLoop.Runner.HandleMessage | backend/events/consumer.py:52-85 | whatever others do between its steps: a skipped or handled event is processed; a failed one has its next attempt in a log if there is a retry publisher and attempt < max_attempts, and is dead-lettered otherwise, with the claim given back; a lost claim ends the work without commit; undisturbed, the result follows from processed row and claim |
| ConsumerLoop.Runner.ConsumeMessages | backend/events/consumer.py:138-165 | whatever others do meanwhile: the loop goes on exactly until an outcome ends it, every message counted is processed, max_messages is respected, and all committed offsets are accounted for |
| StreamLog.CommittedSeqsAreContiguous | backend/agent/repository_stream.py:62-106 | under interleaved writers, aborts and repeated keyed writes the committed numbers are exactly 1..n and keys are unique |
| StreamLog.CommittedOnlyGrows | backend/agent/repository_stream.py:62-106 | committed rows are never changed, removed or renumbered |
| StreamLog.LoneWriterAppends | backend/agent/repository_stream.py:62-106 | a writer that finds the lock free appends one row with the next number iff it commits and its key is new, and gives the lock back |
| StreamLog.Writer.AddEvent | backend/agent/repository_stream.py:62-106 | adds one row with the next number, or nothing when the idempotency key is taken |
| StreamLog.Writer.AddCancelled | backend/workers/analysis.py:173-211 | one read of the next number and two rows that continue the log |
| StreamPoll.RunViewsGrow | backend/agent/repository_stream.py:62-106 | queries at successive points of any run of the writers see contiguous logs that only grow |
| StreamPoll.Poll | backend/api/routes.py:401-463 | the loop of queries and looks sends exactly what its queries find, each asking after the last number sent, and ends at the first reason to |
| StreamPoll.SessionDelivers | backend/api/routes.py:411-456 | every session sends the events right after after_seq without gap or repeat: the page of its last query in full, and what an earlier query could see as far as the pages since then go |
| StreamPoll.SessionEndsForAReason | backend/api/routes.py:429-456 | a session ends without a terminal event only because the client left or a look found the analysis ended, and then after one more page; a client that left was sent no terminal event |
| StreamPoll.PagesOnIff | backend/api/routes.py:411-456 | after n queries a session is n pages on or at the end of the log its last query saw iff all pages were full or the last one reached that end |
| StreamPoll.ShortPageIsNotMadeUp | backend/api/routes.py:411-456 | an empty log and then 2000 events: two queries send 1000 |
| StreamPoll.FinishedLogGivesFinishedSession | backend/api/routes.py:436-456 | on a finished log of an ended analysis a session whose client stays sends exactly the finished session |
| StreamPoll.FinishedSessionIsCompleteIff | backend/api/routes.py:411-456 | a session opened on the finished log of an ended analysis delivers all that is left iff it fits into one page, or two when the first has no terminal event |
| StreamPoll.LongLogIsCutShort | backend/api/routes.py:440-456 | a log of 2001 events of which such a session sends 2000 and not the terminal one |
| StreamPoll.QueryIsSliceIff | backend/api/postgres_analysis_service.py:648-669 | on a contiguous log the ordered limited query has exactly one answer, the next slice |
| StreamPoll.SessionsCompose | backend/api/sse.py:79-85 | sessions chained by Last-Event-ID deliver one contiguous run with no gap and no repeat |
| StreamPoll.ResumingReachesEnd | backend/api/routes.py:401-463 | k resumed sessions reach the end of the log or k pages on |
| RepoPath.NormalizedPrefixIsStableIff | backend/cache/__init__.py:223-232 | normalising twice equals once iff the result is not "/", and "/" becomes the empty prefix |
| RepoPath.NormalizesToSlashIff | backend/cache/__init__.py:223-232 | a prefix normalises to "/" iff something is left after stripping and every component is empty or "." |
| RepoPath.PartsAreClean | backend/cache/__init__.py:223-232 | the kept components are non-empty, not ".", and free of slashes and backslashes |
| PathLaws.PartsJoin | backend/cache/__init__.py:223-232 | the components of two paths with a slash or backslash between them are those of the first and then of the second |
| PathLaws.PartsOfOne | backend/cache/__init__.py:223-232 | a text without separators is its only component, unless it is empty or "." |
| PathLaws.UnsafeIff | backend/cache/__init__.py:235-245 | a component is refused iff it is "..", has a colon, or is one of the 22 device names in any case, alone or before a dot |
| PathLaws.NormalizedSpelling | backend/cache/__init__.py:223-232 | the result is empty iff there are only separators, refused iff a component is, and otherwise each component followed by a slash, or "/" without any |
| PrefixCache.CacheIsSound | backend/execution/__init__.py:667-696 | with one writer at a time and no eligible file named like a temporary one, in every interleaving with lost coverage updates and crashes inside write_file a covered prefix has all its eligible files in place with matching hashes, and so has every finished search |
| CacheRuns.CacheIsSoundIff | backend/cache/__init__.py:53-87 | for every set of files and path_prefix: sound for all contents and interleavings iff every eligible file in the area is safe, that is, the prefix is not made of "." alone, writers exclude each other, and the file is not named like another readable file plus ".tmp" |
| CacheRuns.ClashIsUnsound | backend/cache/__init__.py:81-87 | a read that looked too early takes a covered file named like its temporary one away, in one process |
| CacheRuns.SharedWritersAreUnsound | backend/cache/__init__.py:81-87 | two writers of one file leave a covered file torn |
| CacheRuns.DotsAreUnsound | backend/cache/__init__.py:223-232 | a search under "." covers everything and writes nothing |
| CacheRuns.RewriteLosesFile | backend/cache/__init__.py:81-87 | without concurrency: a second, wider search that fails leaves a covered file missing |
| CacheSteps.SearchLooks | backend/execution/__init__.py:676-690 | a search is done at once on a covered prefix, refuses more than max_prefix_bytes, and otherwise goes on to write |
| CacheSteps.ReadLooks | backend/execution/__init__.py:667-674 | a read is done at once iff the file is in place with the right hash |
| CacheSteps.OpenTruncates | backend/cache/__init__.py:81-87 | opening the temporary file truncates the one that is there, whoever writes to it |
| CacheSteps.RenameEndsRow | backend/cache/__init__.py:81-87 | the temporary file replaces the path with whatever it holds, and the worker goes on to the next row, the mark or its end |
| SourceCache.LocalCache.WriteFile | backend/cache/__init__.py:81-87 | the path holds the data, its temporary name is gone, and every other file is as before |
| SourceCache.LocalCache.EnsurePrefix | backend/execution/__init__.py:676-696 | it succeeds iff the prefix is covered already, or its files are within max_prefix_bytes and all contents match their hashes; success means covered with exact file and byte counts, and complete without eligible temporary names; failure leaves coverage alone and then hurts no covered prefix |
| LikePattern.EscapeLike | backend/execution/repository.py:636-643 | the loop computes the escaped text |
| LikePattern.PrefixPattern | backend/execution/repository.py:132-152 | escape(p) followed by "%" matches exactly the strings that start with p |
| LikePattern.ContainsPattern | backend/execution/repository.py:95-130 | "%", escape(q), "%" matches exactly the strings that contain q |
| LikePattern.DirectoryPattern | backend/execution/repository.py:61-67 | the recursive listing pattern matches exactly the strings under the directory |
| LikePattern.GlobKeepsMeaning | backend/execution/repository.py:621-629 | the translated glob matches exactly the strings in which each star stands for any string and all else is literal |
| ContextItems.NormalizedIsClosed | backend/agent/context_manager.py:50-65 | the result is a replayable subsequence in which every call has an output and every output a call |
| ContextItems.NormalizedIsLargest | backend/agent/context_manager.py:50-65 | every closed replayable subsequence of the input is a subsequence of the result |
| ContextItems.NormalizeFixesIff | backend/agent/context_manager.py:50-65 | a list is left as it is iff it is replayable and closed; normalising twice equals once |
| ContextItems.NormalizedExactly | backend/agent/context_manager.py:50-65 | an item keeps all its occurrences iff it is a tool item with id and partner, a compaction, reasoning, or a message of assistant, user, developer or system |
| ContextItems.PromptIsClosedAndPruned | backend/agent/context_manager.py:31-47 | for any window, exclusions and extra items the prompt is closed, free of excluded calls, and keeps only user, developer and system messages from before the latest compaction |
| ContextItems.PromptKeeps | backend/agent/context_manager.py:31-47 | a replayable item that is not excluded is dropped only when its partner is missing |
| ContextItems.PromptExactly | backend/agent/context_manager.py:31-47 | how often each item occurs in the prompt, for every history, extra items and exclusions |
| ContextItems.PromptIsInOrder | backend/agent/context_manager.py:31-47 | the prompt keeps the order of history and extra items |
| ContextItems.NormalizeItems | backend/agent/context_manager.py:50-65 | the loops compute the normalisation |
| ContextItems.PruneItems | backend/agent/context_manager.py:77-97 | the loop keeps everything from the latest compaction on and the true context messages before it |
| DocumentStore.RunKeepsStoreInv | backend/document/service.py:168-366 | in every interleaving of service calls, several executions of one tool call included, revisions are exactly versions 1..current_version, rows repeat their latest revision, stored content matches hash and size, and a returned result equals its replay |
| DocumentStore.HistoryIsForever | backend/document/memory_repository.py:85-97 | in any run finalized and deleted documents, recorded revisions and their content never change |
| DocumentStore.ReplayIsStable | backend/document/service.py:349-366 | replaying a recorded tool call returns the original result whatever happened since |
| DocumentStore.OneSuccessPerVersion | backend/document/service.py:185-188 | results of different tool calls never share document and version |
| DocumentHistory.RunKeepsProvenance | backend/document/service.py:168-366 | in every interleaving each revision is what its tool call asked for, on a document of the analysis of that call, with its text or the content of the version before; a call told that a document has ended was told the truth |
| DocumentHistory.LoneCallDecided | backend/document/service.py:168-339 | alone, an update, delete or finalize is refused for exactly the four stated reasons, without effect, and otherwise records the next version with its status and content |
| DocumentHistory.LoneCreateSucceeds | backend/document/service.py:36-108 | alone, a create records version 1 of a new draft of its analysis with its text |
| DocumentHistory.RecordedCallIsReplayed | backend/document/service.py:349-366 | a tool call that has its revision is answered from it and changes nothing |
| DocumentStore.Service.FindByToolCall | backend/document/memory_repository.py:58-62 | the loop finds the first revision of the tool call or none exists |
| DocumentStore.Service.UpdateWithRevision | backend/document/memory_repository.py:85-97 | row and revision change together iff version and draft status are as expected |
| DocumentStore.Service.Mutate | backend/document/service.py:168-339 | replay, each refusal, or the recorded new version with its stored content, exactly as the read row decides |
| DocumentTree.CreatedNodesNest | backend/document/service.py:562-565 | after any creations ids are distinct, parents are folders, and a parent's path is a proper prefix of its child's |
| DocumentTree.ListedNodesAreWhole | backend/document/memory_repository.py:41-48 | hiding deleted documents never hides the parent of a listed node |
| TreeLaws.CreationAddsIff | backend/document/service.py:497-547 | after any creations one more adds its node iff the id is fresh, the slug good and the parent missing or an existing folder; its path is the parent's path, a slash and the slug |
| TreeLaws.SortedByPathThenOrder | backend/document/service.py:608-608 | nodes are taken by path in string order and by sort_order within a path |
| TreeLaws.ListedCounts | backend/document/memory_repository.py:41-48 | exactly the nodes of deleted documents are hidden |
| DocumentTree.BuildTree | backend/document/service.py:605-623 | the single pass puts each node where its parent_id says although it only knows the nodes met so far |
| DocumentTree.EachNodeOnce | backend/document/service.py:605-623 | each node stands exactly once, under its listed parent or among the roots, and nowhere else |
| DocumentTree.HangsFromRoot | backend/document/service.py:605-623 | the chain of parents of every node ends at a root |
| RwLock.RunKeepsLockInv | backend/workers/execution.py:113-142 | in every run with cancellations the counts are the holders plus the leaks, at most one writer holds the lock, and no task is parked while its wait condition holds |
| RwLock.CountsExactIff | backend/workers/execution.py:126-142 | after a run the counts are exact iff no task was cancelled while it waited to give the lock back |
| RwLock.LeakBlocksForever | backend/workers/execution.py:126-142 | after a leaked write nobody ever holds the lock again, after a leaked read no writer does |
| RwLock.NoDeadlock | backend/workers/execution.py:113-142 | without leaks, while a task is not idle some task can take a step of its own |
| RwLock.WriterExcludes | backend/workers/execution.py:119-142 | two tasks that hold the lock are both readers |
| RwLock.PassesIff | backend/workers/execution.py:119-139 | without leaks a reader that tests passes iff no writer holds the lock, a writer iff nobody does |
| RwLock.LeavingWakesIff | backend/workers/execution.py:126-142 | without leaks the parked tasks are woken iff nobody holds the lock any more |
| RwLock.LoneTaskPasses | backend/workers/execution.py:119-139 | a task that finds the lock empty gets it with its next steps |
| RwLock.AsyncReadWriteLock.Enter | backend/workers/execution.py:119-139 | a task passes or parks exactly as the lock step says, with the counts it leaves |
| RwLock.AsyncReadWriteLock.Exit | backend/workers/execution.py:126-142 | counts after leaving, and whether the parked tasks are woken |

## Left out

- Statement-level READ COMMITTED interleavings of the batch scheduler: one handler call is one atomic step.
- Exactly-once handling of events: the processed check and the claim are separate transactions, so only at-least-once is claimed.
- Exactly one continuation turn per set of parallel tool calls: domain keys are per tool call, so several events can see the turn ready.
- Progress of a batch without a terminal event per active item; a batch that can end is shown to have a run that ends it.
- Fallback paths for repositories without the atomic methods (backend/agent/handler.py:381-393, 427-463; backend/workers/execution.py:319-346).
- Events whose analysis and agent ids do not belong together, except for `fail_analysis` and cancel events: the agreement and join theorems assume that handlers take both ids from one row.
- Join.NoLostWakeup: an event of a tool call that is dead-lettered stays open for ever, so it promises nothing for that turn.
- The answer that `_ready_tool_outputs` makes up for a failed event without a stored answer (backend/agent/handler.py:752-770): only the events of cancelled calls are like that, and their analysis has ended.
- AgentTurns.TurnCountIsExact: a turn is not taken up while another handler works on it, as the event claim arranges while its lease lasts; `AgentTurns.TurnCountExactIff` covers every other run.
- Delivery.CommittedIsAccounted: a rebalance is a restart of the consumer; a rebalance while a message is in hand is not modelled.
- EventLease.HolderKeepsLease: reads the clock in the same step as the statement that uses it.
- StreamPoll.Poll: keepalive comments and the idle deadline are not modelled, each query sees a committed prefix of the log, and a client leaves only between a query and the next.
- Sections of documents, titles and timestamps: only whole-document content, version, status and replay are modelled.
- DocumentStore.RunKeepsStoreInv: the executions of one tool call have the same arguments, and a second revision of one tool call is refused by the unique index on document_revisions (backend/db/schema.py:558), which the in-memory repository lacks.
- DocumentTree.BuildTree: nested items are represented by ids and child lists; slug syntax beyond "not empty, no slash" is not modelled.
- CacheRuns.CacheIsSoundIff: snapshot paths are unique, relative and already in the form the cache stores them, directories are not modelled, and `LocalSourceCache.cleanup` does not run meanwhile.
- Fairness of the read/write lock to writers, and the table of locks per agent.
- list_files paging after the visibility filter, and lower-casing in search_files.
- Single guarded updates such as `update_session_status` and `fail_turn` have no method of their own: their step in `Platform` is the statement.
- OpenAI, Tavily, git, MinIO, Kafka client and ripgrep calls, authentication, configuration, FastAPI schemas and the frontend: foreign I/O or plumbing; model results, clocks, tokens and storage answers are parameters.
- UUID generation, JSON encoding and SQL text: fresh ids, opaque payloads and guarded row updates stand for them.
