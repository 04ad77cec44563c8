# Verified model of the S-Code agent core, audit log and editor client

A Dafny 4.11 model of seven components of S-Code and proofs of what they promise.
`dafny verify dfyconfig.toml` checks everything.

| files | component |
|---|---|
| `AgentRun`, `Batches`, `Turn`, `Steps`, `Schedule`, `ToolCalls`, `Provider` | the agent turn engine: one whole run, its state machine, operation journal, step queue, tool waves and dispatch retries |
| `Json`, `History`, `HistoryPass`, `HistoryFacts` | compaction of superseded tool history |
| `KeyScan`, `AssignmentScan`, `SchemeScan`, `RangeMerge`, `Redaction`, `KeySurvivors`, `UncoveredText` | the text redactor of the audit crate, and what its output can still hold |
| `AuditChain` | the audit hash chain |
| `HunkRejection`, `HunkParsing`, `Lines`, `Decimals` | inline rejection of diff hunks in the editor |
| `Sse`, `Subscription` | the event stream, its cursor and the reconnect loop |
| `Approvals`, `ApprovalRuns` | the approval queue, and every interleaving of its operations |
| `Bundle` | the bounded reader and the tar layout check of the runtime bundle |
| `Wrappers` | `Option` and `Result` |

How the model is built:

- Code that works by changing things is imperative here too: `TurnRun`, `TurnMachine`,
  `AgentJournal`, `StepRequestQueue`, `ToolSchedule`, `HashChain`, `Subscriber`,
  `ApprovalQueue` and `LimitedReader` are classes, and the scanners, mergers and rewriters
  are loops. Each is proved against a function or a declarative condition about which the
  lemmas speak.
- The provider, the tools, arriving steps, cancellation and timeouts are values of
  `CallWorld`, one for each model call, and entirely arbitrary. `AgentRun.Run` is proved
  for all of them.
- Where the source writes `transition(..)?`, `record_model_call(..)?` or
  `record_tool_call()?`, the model has `assert e.None?`: the error return is unreachable.
  `TurnMachine.refusals` counts refusals, and is zero at the end of every run.
- Integers are unbounded; `Cap` writes saturation at 32 or 64 bits out. The one addition
  that does not saturate and could overflow (`tool_calls += 1`) ends a run of the model
  with `CounterOverflow`, which is proved to need a tool-call limit of `u32::MAX`.
- Bytes of text are characters below 256 in the redactor and in audit heads; elsewhere
  strings are sequences of characters.
- The wording of prompts, reasons and error texts that no decision reads is abridged.
- SHA-256, the JSON encoding of events, JSON parsing and unusual JavaScript numerals are
  arbitrary functions.

What the proofs found about the code:

- A rejected hunk that only deletes, with no context and not at the top of the file, comes
  back one line too early. `HunkRejection.RejectExactly` says when that shows: exactly when
  a deleted line differs from the line above the hunk. `HunkRejection.DeletionComesBackTooEarly`
  is an instance.
- Compacting the history twice can differ from compacting it once: compaction erases the
  mark of a deferred `run_command` result, which then counts as the latest run and unpins
  the failure before it. `HistoryFacts.IdempotentExactly` says exactly when, and
  `HistoryFacts.SecondPassCanChange` is an instance.
- `HashChain::from_head` also accepts heads that `head` never writes: upper-case digits and
  a `+` in front of a digit. `AuditChain.ParsedHeadIsCanonical` gives the exact condition,
  `AuditChain.ZeroHeadWithPlus` an instance. On heads with non-ASCII text it panics,
  exactly as `AuditChain.TornExactly` says; `AuditChain.TornHeadPanics` gives such heads.
- A cancellation during the dispatch retries leaves the queued steps out of the result,
  unlike the cancellations at the loop head, in the stream, while preparing and while
  running tools, whose contracts all promise every message that outlives the turn.
  `AgentRun.TurnRun.CallFailed` and `AgentRun.TurnRun.Dispatch` give the exact condition:
  nothing is lost if and only if nothing in the queue outlives the turn.
  `AgentRun.FollowUpIsLost` plays it from the start of a run, for every request.
- Steps for a new turn are dropped between model calls but admitted while a stream is read:
  `AgentRun.NewTurnStepNeedsStream`, and `AgentRun.NewTurnStepAtBothPlaces` for one step.
- A hunk header is recognised if and only if its heading holds no line terminator
  (`HunkParsing.HeaderRoundTrip`); `HunkParsing.CarriageReturnHidesHeader` is an instance. The
  parse drops exactly the other hunks (`HunkParsing.ParsePrinted`), so rejecting everything that
  was parsed leaves them applied (`HunkParsing.ParseThenRejectSeen`).
- The scheme loop of the redactor passes over an occurrence inside the token of an earlier
  one. `Redaction.RedactText` hides exactly the tokens of the others; in a header none is
  passed over when a separator stands in front of it (`SchemeScan.SeparatedIsVisited`), and
  `SchemeScan.GluedIsPassedOver` shows those that are; `UncoveredText.TokenIsLeft` gives texts
  that leave with their token, unchanged.
- Hiding a value can turn what follows into a key: a value that ends in `\u` keeps a percent
  escape on the next line from being read, and once the value is gone the escape is one.
  `KeySurvivors.SurvivingKeysExactly` says exactly which keys an output holds, by a condition on
  the input; `UncoveredText.KeyIsLeft` is a family of instances.
- Two decisions for one approval id can be under way at once, although an entry never has two.
  One of the two entries must have left the queue (`ApprovalRuns.SharedIdHasLeft`); adding,
  deciding, removing, adding and deciding again does it (`ApprovalRuns.TwoCallsForOneId`).
- A deferred batch at the end of the history keeps its results in every pass, but a call of it
  loses its arguments when an older result with the same id is superseded.
  `HistoryFacts.CallRewrittenExactly` is the condition, `HistoryFacts.SharedIdLosesArguments`
  an instance, and with unique ids the whole batch stays (`HistoryFacts.DeferredBatchKept`).

## Model

| member | source | states |
|---|---|---|
| `AgentRun.Run` | crates/agent-core/src/lib.rs:588-1345 | For every provider, executor, cancellation and stream of arriving steps the run terminates, refuses no transition and no call count, keeps `Safe` (media attached at every dispatch, output cap nondecreasing and bounded, at most `maxRetries + 3` dispatches for each model call, every batch accounted for), and an Ok result replays to its own counters, passes the checkpoint check and is within every limit (input and output tokens together within the token limit whenever that is below `u64::MAX`); its status and its last journalled status are the machine's, its journalled tool calls are those the ledger started, and all outcomes are those of the ledger |
| `AgentRun.TurnRun.Turn` | crates/agent-core/src/lib.rs:619-1344 | An iteration of the outer loop starts in CallingModel within all limits and either ends the run or is back there having spent exactly one model call; a response that proposes tool calls enters exactly its batch in the ledger, under the claims its world announced, so that a call announced as pausing pauses alone; any other leaves the ledger alone |
| `AgentRun.TurnRun.constructor` | crates/agent-core/src/lib.rs:599-615 | A new run has counted nothing, has an empty ledger and is within all limits, with the history of the request |
| `AgentRun.TurnRun.Begin` | crates/agent-core/src/lib.rs:600-615 | The opening transitions are legal and journalled, and the run stands at the loop head with the last message as its one waiting driver |
| `AgentRun.TurnRun.Loop` | crates/agent-core/src/lib.rs:619-1344 | The loop ends, since every iteration spends a model call, and its result is consistent with journal, machine and ledger |
| `AgentRun.TurnRun.FinishCancelled` | crates/agent-core/src/lib.rs:1957-1960 | A cancelled run keeps exactly the queued messages that outlive the turn |
| `AgentRun.TurnRun.FinishFailed` | crates/agent-core/src/lib.rs:1357-1383 | A failed run keeps every queued message and reports its reason |
| `AgentRun.TurnRun.Emit` | crates/agent-core/src/lib.rs:1347-1355 | A legal transition succeeds and is journalled, so the journal still replays to the counters |
| `AgentRun.TurnRun.InitialQueue` | crates/agent-core/src/lib.rs:1781-1826 | The last message becomes the one queued step, a pending driver, and the others stay, so nothing is lost |
| `AgentRun.TurnRun.JoinBatch` | crates/agent-core/src/lib.rs:636-650 | The next batch is appended to the history and the other drivers stay queued; no message is lost or doubled, and no tool result is left behind |
| `AgentRun.TurnRun.TakeStep` | crates/agent-core/src/lib.rs:620-650 | The loop head goes on exactly when it is not cancelled and a live step was queued or arrived, and then conserves all messages; when cancelled, the result holds everything that outlives the turn |
| `AgentRun.TurnRun.DrainExternal` | crates/agent-core/src/lib.rs:1912-1924 | Arriving steps join the queue in order, exactly those that target the active turn |
| `AgentRun.TurnRun.Head` | crates/agent-core/src/lib.rs:620-672 | The model is called exactly when the turn is not cancelled, a live step waits and the model-call limit is not reached; the queue is then what the batch left |
| `AgentRun.TurnRun.CheckCalls` | crates/agent-core/src/lib.rs:651-672 | At the model-call limit the run fails with that reason; below it the queue is untouched |
| `AgentRun.TurnRun.Remind` | crates/agent-core/src/lib.rs:665-672 | The budget reminder is added exactly when the threshold is reached and none was added before |
| `AgentRun.TurnRun.RewriteHistory` | crates/agent-core/src/lib.rs:673-674 | Both rewriters run in order, and afterwards all media is attached |
| `AgentRun.TurnRun.CountModelCall` | crates/agent-core/src/lib.rs:675-677 | Counting a model call below the limit is never refused |
| `AgentRun.TurnRun.Dispatch` | crates/agent-core/src/lib.rs:673-739 | One model call makes at least one and at most `maxRetries + 3` dispatches, each with attached media only and the cap of the moment; when cancelled, the queue stays behind, and nothing is lost if and only if nothing in it outlives the turn |
| `AgentRun.TurnRun.CallFailed` | crates/agent-core/src/lib.rs:684-737 | A cancelled dispatch leaves messages and queue as they were, so it holds what outlives the turn if and only if nothing does; a timeout keeps every queued message |
| `AgentRun.NothingOutlives` | crates/agent-core/src/lib.rs:721-735 | The untouched history holds what outlives the turn exactly when nothing in the queue does |
| `AgentRun.FollowUpIsLost` | crates/agent-core/src/lib.rs:619-735 | For every request: when a user's follow-up arrives before the first call and the dispatch is cancelled, the loop head leaves it in the queue and the result is the request's history without it |
| `AgentRun.NewTurnStepNeedsStream` | crates/agent-core/src/lib.rs:1912-1924 | A step for a new turn is queued if and only if it arrives as an item of the stream, before its completion |
| `AgentRun.NewTurnStepAtBothPlaces` | crates/agent-core/src/lib.rs:777-783 | The same step is dropped when it arrives between calls and queued when it arrives in the stream |
| `AgentRun.TurnRun.AddUsage` | crates/agent-core/src/lib.rs:854-870 | The machine's total, the saturating counters and the journal stay in step, and it fails exactly when the total passes the limit |
| `AgentRun.TurnRun.Listen` | crates/agent-core/src/lib.rs:740-896 | What is heard of a stream is the fold of its items up to the completion, and the queue grows by exactly the steps that arrived; a cancellation ends the run with the partial text and everything that outlives the turn |
| `AgentRun.ListenedAscending` | crates/agent-core/src/lib.rs:740-853 | Tool calls come out in the order of their indices, whatever the order of their deltas |
| `AgentRun.TurnRun.PreservePartial` | crates/agent-core/src/lib.rs:1962-1977 | Partial text is appended to the assistant text, the journal and the messages alike |
| `AgentRun.TurnRun.JudgeBroken` | crates/agent-core/src/lib.rs:897-942 | A broken or idle stream is retried exactly when nothing was heard and fewer than two retries in a row were made; otherwise the partial text is preserved and the run ends |
| `AgentRun.TurnRun.JudgeEmpty` | crates/agent-core/src/lib.rs:944-975 | An empty response is retried exactly when fewer than two in a row were; the cap grows exactly when the output limit was used up |
| `AgentRun.TurnRun.JudgeIncomplete` | crates/agent-core/src/lib.rs:977-1022 | A truncated response is always preserved, and retried with a grown cap exactly when fewer than two in a row were |
| `AgentRun.NextCap` | crates/agent-core/src/lib.rs:951-959 | The output cap never falls, grows to the adaptive maximum at most, and stays when it is fixed |
| `AgentRun.TurnRun.Judge` | crates/agent-core/src/lib.rs:897-1055 | The tool phase follows exactly when the stream ended with tool calls and within the output limit; then all three retry counts are zero and the text is recorded once |
| `AgentRun.TurnRun.Answer` | crates/agent-core/src/lib.rs:1028-1053 | A plain answer completes the run exactly when no live step is queued after both drains |
| `AgentRun.TurnRun.JudgeComplete` | crates/agent-core/src/lib.rs:1023-1053 | A complete response appends its text exactly once; with tool calls it goes on to the tool phase |
| `AgentRun.TurnRun.Propose` | crates/agent-core/src/lib.rs:1055-1343 | Every well-formed batch is entered in the ledger exactly once and the ledger is accounted for; on return to the model each call ran once and has one result waiting in the queue; a call announced as pausing pauses alone |
| `AgentRun.TurnRun.DeferBatch` | crates/agent-core/src/lib.rs:1072-1097 | An over-limit batch executes nothing and gets one deferred result for each call |
| `AgentRun.TurnRun.CountToolCall` | crates/agent-core/src/lib.rs:1106-1111 | Counting a tool call within the limit is never refused |
| `AgentRun.TurnRun.StopBatch` | crates/agent-core/src/lib.rs:1120-1150 | A batch cut short goes into the ledger as it is; when cancelled, the result holds everything that outlives the turn |
| `AgentRun.TurnRun.StartCalls` | crates/agent-core/src/lib.rs:1098-1168 | All calls of the batch are counted and scheduled in order under their own claims |
| `AgentRun.TurnRun.Take` | crates/agent-core/src/lib.rs:1221-1295 | One answer queues one result under the call's id unless it pauses; a failure is retryable, and the run goes on, exactly while its fingerprint's failures since its last success are below the limit |
| `AgentRun.TurnRun.TakeWave` | crates/agent-core/src/lib.rs:1219-1295 | The answers of a wave cover it: each call is answered or pauses, exactly once |
| `Batches.LoneInWave` | crates/agent-core/src/lib.rs:1170-1334 | If a pausing call of a wave had claimed everything, it is the only one that pauses |
| `AgentRun.AnnouncedPausesAlone` | crates/agent-core/src/lib.rs:1154-1158 | A call that the executor announced as pausing pauses alone, in every accounted batch |
| `Batches.WaveEnds` | crates/agent-core/src/lib.rs:1219-1334 | After a wave everybody is answered, paused or waiting, and those that ran are those that were answered or paused |
| `AgentRun.TurnRun.FinishPaused` | crates/agent-core/src/lib.rs:1297-1316 | On a pause every call but the pausing one has exactly one result, and all those results are in the returned messages |
| `AgentRun.TurnRun.DeferWaiting` | crates/agent-core/src/lib.rs:1979-1998 | Every call still waiting gets one deferred result under its own id |
| `AgentRun.TurnRun.RunWave` | crates/agent-core/src/lib.rs:1170-1334 | A wave shortens the schedule, and what is answered and what is waiting stay a partition of the batch |
| `AgentRun.TurnRun.RunWaves` | crates/agent-core/src/lib.rs:1170-1343 | The waves end; back at the model each call has exactly one result, queued in front of the continuation, and no failure count has reached the limit |
| `Turn.TurnMachine.Transition` | crates/agent-core/src/lib.rs:122-132 | A transition is refused exactly when the table forbids it, and then changes nothing |
| `Turn.TurnMachine.RecordModelCall` | crates/agent-core/src/lib.rs:88-98 | Refused exactly when the new count or cost is over its limit |
| `Turn.TurnMachine.RecordToolCall` | crates/agent-core/src/lib.rs:99-105 | Refused exactly when the new count is over its limit |
| `Turn.TurnMachine.RecordUsage` | crates/agent-core/src/lib.rs:106-115 | The total saturates, and it fails exactly when the total is over its limit |
| `Turn.ReplayAgentOps` | crates/agent-core/src/lib.rs:274-280 | The loop is the fold of the operations |
| `Turn.ReplaySucceedsExactly` | crates/agent-core/src/lib.rs:240-272 | Replay succeeds exactly on current versions numbered without a gap |
| `Turn.ReplayTotals` | crates/agent-core/src/lib.rs:240-272 | A replay is the totals of the list: all text in order, saturating sums of tokens, counts of calls |
| `Turn.AgentJournal.Append` | crates/agent-core/src/lib.rs:288-300 | Appending never meets a gap, keeps the older operations, and the projection stays the replay of the list |
| `Turn.Decode` | crates/agent-core/src/lib.rs:319-356 | A checkpoint of the current version is accepted exactly when it has no operations or its result is what they replay to |
| `Steps.StepRequestQueue.TakeNextBatch` | crates/agent-core/src/step/queue.rs:56-80 | One driver and all mergeable requests are taken; the other drivers stay in order |
| `Steps.StepRequestQueue.AbortTurnScoped` | crates/agent-core/src/step/queue.rs:82-89 | Exactly the live requests that outlive the turn are kept, in order |
| `Steps.KeepsTurnExactly` | crates/agent-core/src/step/queue.rs:82-89 | A request survives exactly when it is live and not both pending and scoped to the turn |
| `Steps.StepRequestQueue.DrainMaterialized` | crates/agent-core/src/step/queue.rs:95-101 | Every waiting message comes out exactly once |
| `Steps.StepRequestQueue.HasPendingRequests` | crates/agent-core/src/step/queue.rs:52-54 | Something is pending exactly when a live request is queued |
| `Steps.StepRequestQueue.Admit` | crates/agent-core/src/step/queue.rs:34-43 | A request enters exactly when its admission has a target |
| `Steps.BatchConserves` | crates/agent-core/src/step/queue.rs:58-80 | Taking a batch neither loses nor doubles a message |
| `Steps.MergeableIsTaken` | crates/agent-core/src/step/queue.rs:56-80 | A mergeable request is in the next batch and not left in the queue |
| `Steps.NoMergeableIsLeft` | crates/agent-core/src/step/queue.rs:69-78 | The split puts every request on its own side, and no mergeable one remains |
| `Schedule.ToolSchedule.TakeReadyWave` | crates/agent-core/src/tool/scheduler.rs:45-66 | The two-list loop takes exactly the calls that conflict with nothing in front of them |
| `Schedule.Partition` | crates/agent-core/src/tool/scheduler.rs:48-66 | A wave and what stays waiting are a partition of the calls |
| `Schedule.WaveIsConflictFree` | crates/agent-core/src/tool/scheduler.rs:48-66 | No two calls of a wave conflict |
| `Schedule.FirstIsReady` | crates/agent-core/src/tool/scheduler.rs:48-66 | The first waiting call is always in the wave, so the loop makes progress |
| `Schedule.ExclusiveRunsAlone` | crates/agent-core/src/tool/resource.rs:97-108 | A call with a global claim is alone in its wave |
| `Schedule.ConflictSymmetric` | crates/agent-core/src/tool/resource.rs:97-122 | Conflicts do not depend on the order of the calls |
| `ToolCalls.AddDeltaAscending` | crates/agent-core/src/lib.rs:835-853 | Builders stay in ascending order of their indices |
| `ToolCalls.AddDeltaUpdatesOne` | crates/agent-core/src/lib.rs:835-853 | A delta extends the builder of its own index and touches no other |
| `ToolCalls.CompleteExactly` | crates/agent-core/src/lib.rs:1528-1541 | Calls are completed exactly when each builder has an id and a name, in order and without loss |
| `ToolCalls.LimitMessagesAnswer` | crates/agent-core/src/lib.rs:1550-1572 | Each call of an over-limit batch gets a result that is recognised as deferred, under its own id |
| `ToolCalls.ReportsReachTheModel` | crates/agent-core/src/lib.rs:1828-1844 | Queued results are all in the next step of the model |
| `ToolCalls.RecountCounts` | crates/agent-core/src/lib.rs:1231-1295 | The failure map holds for every fingerprint its failures since its last success |
| `Provider.AttachedExactly` | crates/agent-core/src/lib.rs:1648-1664 | Media is attached exactly when one tool result has its id and that result is an intact object |
| `Provider.RetainAttached` | crates/agent-core/src/lib.rs:1648-1664 | Exactly the attached media is kept, unchanged |
| `Provider.WithdrawToolMedia` | crates/agent-core/src/lib.rs:1630-1646 | All media is gone and exactly the results that carried it are replaced |
| `Provider.StreamWithRetry` | crates/agent-core/src/lib.rs:1385-1430 | At most `maxRetries + 3` dispatches, each with attached media only, whatever packing makes of the messages; the outcome is the last dispatch's, and an interruption of the first ends it |
| `HistoryPass.CompactSupersededToolHistory` | crates/agent-core/src/lib.rs:1666-1779 | The index-collecting, in-place pass computes the declarative `Compact` and the number of newly compacted results |
| `HistoryPass.ProtectedResults` | crates/agent-core/src/lib.rs:1574-1606 | The set is exactly the deferred results of the last assistant message's calls |
| `HistoryPass.LatestFailedVerifier` | crates/agent-core/src/lib.rs:1608-1627 | The pinned position, if any, is exactly the latest executed run when that run failed |
| `HistoryPass.CollectSuperseded` | crates/agent-core/src/lib.rs:1670-1698 | The list holds exactly the superseded positions in increasing order |
| `HistoryPass.RewriteResults` | crates/agent-core/src/lib.rs:1699-1722 | Exactly the superseded results are compacted, and the ids and the count are those of the definition |
| `HistoryPass.RewriteCalls` | crates/agent-core/src/lib.rs:1724-1753 | Every assistant message has the arguments of the listed calls compacted and nothing else changed |
| `HistoryFacts.RewriteKeeps` | crates/agent-core/src/lib.rs:1666-1779 | Roles, result ids and call ids survive at every position; what is recent, protected or pinned is verbatim |
| `HistoryFacts.CompactIsRewriteOrInsert` | crates/agent-core/src/lib.rs:1755-1779 | A pass inserts at most one marker and nothing else |
| `HistoryFacts.AtMostSevenDetailed` | crates/agent-core/src/lib.rs:1666-1779 | At most seven unprotected results keep their detail |
| `HistoryFacts.ReturnsNewlyCompacted` | crates/agent-core/src/lib.rs:1703-1722 | The returned number is the number of results that lost their detail in this pass |
| `HistoryFacts.ArgumentsGoWithResult` | crates/agent-core/src/lib.rs:1724-1753 | A call's arguments are compacted only along with a result of that call |
| `HistoryFacts.CallRewrittenExactly` | crates/agent-core/src/lib.rs:1724-1753 | Every call of every assistant message is compacted if some superseded result has its id, and verbatim otherwise |
| `HistoryFacts.ProtectedPairKept` | crates/agent-core/src/lib.rs:1574-1606 | With unique result ids, a protected result and the call that it answers are both verbatim after a pass |
| `HistoryFacts.DeferredBatchKept` | crates/agent-core/src/lib.rs:1574-1606 | With unique result ids, the last assistant message of an entirely deferred batch is verbatim after a pass |
| `HistoryFacts.SharedIdLosesArguments` | crates/agent-core/src/lib.rs:1724-1753 | A concrete history in which a protected result stays and its call loses its arguments to an older result with the same id |
| `HistoryFacts.IdempotentExactly` | crates/agent-core/src/lib.rs:1608-1627 | A second pass changes nothing if and only if no deferred run ages together with a pinned failure before it |
| `HistoryFacts.SecondPassCanChange` | crates/agent-core/src/lib.rs:1566-1572 | A concrete history that a second pass changes |
| `HistoryFacts.FailureSurvives` | crates/agent-core/src/lib.rs:1608-1627 | A failing last run stays verbatim through any number of passes and appended messages that are no runs |
| `Redaction.RedactText` | crates/audit/src/lib.rs:648-761 | The output is the text with exactly the bytes that must be hidden replaced, one marker for each maximal run, everything else verbatim and in order; what must be hidden is defined line by line, occurrence by occurrence and position by position |
| `KeySurvivors.SurvivingKeysExactly` | crates/audit/src/lib.rs:612-761 | An output holds a key, under the scanner's own rule, at a position if and only if the text is no private key and has at the corresponding place an unhidden prefixed run behind a percent escape whose line follows a `\u` assigned to a sensitive key |
| `KeySurvivors.OutputHoldsNoKey` | crates/audit/src/lib.rs:648-761 | No output holds a key at its start or behind a byte that is not alphanumeric |
| `UncoveredText.KeyIsLeft` | crates/audit/src/lib.rs:612-642 | For every twelve digits, a value ending in `\u`, a line break and a percent-escaped blank in front of akia and the digits leave a key in the output |
| `UncoveredText.TokenIsLeft` | crates/audit/src/lib.rs:682-699 | For both schemes and all digits, a text whose header is glued to an earlier scheme name is not redacted at all, token included |
| `Redaction.RangesAreHidden` | crates/audit/src/lib.rs:654-736 | A byte is in a range of the three scanners exactly when it is assigned to a sensitive key on some line, in the token of a scheme that no earlier token runs across, or in a key at some position |
| `Redaction.MergedPaints` | crates/audit/src/lib.rs:741-760 | The merged ranges hold exactly the hidden bytes and can be cut out |
| `Redaction.CutsAreBoundaries` | crates/audit/src/lib.rs:752-760 | Every bound of the merged ranges, at which the text is sliced, is a character boundary, so slicing cannot panic |
| `AssignmentScan.ScanAssignments` | crates/audit/src/lib.rs:656-680 | The line loop collects the ranges of its recursive definition |
| `AssignmentScan.AssignmentsAreNaive` | crates/audit/src/lib.rs:656-680 | The line loop covers a byte exactly when some line, at whatever start, assigns it to a sensitive key |
| `SchemeScan.ScanScheme` | crates/audit/src/lib.rs:682-699 | The searching loop collects the ranges of the position-by-position definition |
| `SchemeScan.SchemesAreNaive` | crates/audit/src/lib.rs:682-699 | The scheme loops cover a byte exactly when it is in the token of an occurrence in an Authorization header that no earlier unshadowed token runs across |
| `SchemeScan.SeparatedIsVisited` | crates/audit/src/lib.rs:688-698 | An occurrence in an Authorization header with no token byte in front of it is never passed over |
| `SchemeScan.GluedIsPassedOver` | crates/audit/src/lib.rs:697-698 | An occurrence glued to a header name inside an earlier token is passed over, whatever follows |
| `KeyScan.SecretTokenEnd` | crates/audit/src/lib.rs:598-606 | The loop stops at the end of the token run |
| `KeyScan.SeparatorEscape` | crates/audit/src/lib.rs:612-642 | The suffix-walking loop decides the declarative condition |
| `KeyScan.PercentTailExactly` | crates/audit/src/lib.rs:626-639 | The walk accepts exactly a percent sign followed by any number of encoded ones |
| `KeyScan.ScanKeyPrefixes` | crates/audit/src/lib.rs:701-736 | The skipping loops collect the ranges of the recursive scan |
| `KeyScan.ScanIsNaive` | crates/audit/src/lib.rs:718-735 | The skipping scan covers exactly the bytes that testing every position covers |
| `KeyScan.ScanKeysIsNaive` | crates/audit/src/lib.rs:701-736 | The same for all prefixes together |
| `KeyScan.SelfOverlap` | crates/audit/src/lib.rs:701-717 | Only akia and aiza overlap themselves, by one byte |
| `KeyScan.OverlapIsNoKey` | crates/audit/src/lib.rs:718-735 | A prefix hidden behind an overlapping one never starts a word |
| `RangeMerge.SortRangesSorted` | crates/audit/src/lib.rs:741-741 | Sorting yields an ordered permutation |
| `RangeMerge.MergeRanges` | crates/audit/src/lib.rs:742-751 | Merging yields separated ranges with the same union whose bounds come from the input |
| `RangeMerge.SpliceRanges` | crates/audit/src/lib.rs:752-760 | Copying the gaps and writing one marker for each range paints the text |
| `AuditChain.HashChain.Append` | crates/audit/src/lib.rs:498-504 | The digest becomes the hash of the old digest and the event, and the returned text is its head |
| `AuditChain.FromHead` | crates/audit/src/lib.rs:487-496 | A chain resumes from the digest that the head encodes; otherwise the head has the wrong length, a pair that is no number, or is cut inside a character |
| `AuditChain.HeadRoundTrip` | crates/audit/src/lib.rs:487-507 | Every written head parses back to its digest |
| `AuditChain.ParsedHeadIsCanonical` | crates/audit/src/lib.rs:487-496 | A parsed head is the text `head` writes exactly when it is all lower-case hexadecimal |
| `AuditChain.PlusIsAccepted` | crates/audit/src/lib.rs:492-494 | Every digest with a small first byte has a second accepted head, with a plus sign, that is never written |
| `AuditChain.ZeroHeadWithPlus` | crates/audit/src/lib.rs:492-494 | The zero digest is read from a 64-character head with a plus sign |
| `AuditChain.TornExactly` | crates/audit/src/lib.rs:492-494 | Reading panics exactly when a pair behind valid pairs ends inside a character |
| `AuditChain.TornHeadPanics` | crates/audit/src/lib.rs:487-496 | Every 64-byte head that starts with a digit and the two bytes of an accented e is torn |
| `AuditChain.Verify` | crates/audit/src/lib.rs:509-525 | Accepts exactly the histories numbered 1..n whose hashes are the running fold, and ends at their head |
| `AuditChain.ResumeAndAppend` | crates/audit/src/lib.rs:486-526 | Verifying a prefix, resuming from its head and appending the rest ends where one pass over the whole does |
| `AuditChain.FoldConcat` | crates/audit/src/lib.rs:498-504 | Folding a concatenation is folding its parts one after the other |
| `AuditChain.EqualFolds` | crates/audit/src/lib.rs:498-525 | Non-empty numbered event lists with equal folds are equal, or a hash collision is exhibited |
| `AuditChain.EqualHeads` | crates/audit/src/lib.rs:498-530 | Non-empty verified histories with equal heads are identical, or a hash collision is exhibited |
| `HunkRejection.RejectHunks` | clients/vscode/hunks.js:34-47 | The in-place loop is the fold of the splices in stable descending order, on the lines between the newlines |
| `HunkRejection.RejectExactly` | clients/vscode/hunks.js:38-45 | Rejecting any subset, in any order, gives the original with the other hunks applied, if and only if no rejected pure deletion below the top differs from the line above it |
| `HunkRejection.RejectSubset` | clients/vscode/hunks.js:38-45 | Without rejected deletions below the top it always does |
| `HunkRejection.RejectComputesSpliced` | clients/vscode/hunks.js:38-45 | What the descending splices compute in every case, deletions included |
| `HunkRejection.DeletionComesBackTooEarly` | clients/vscode/hunks.js:41-44 | A concrete deletion that is restored at the wrong place |
| `HunkRejection.RaisesExactlyOnMismatch` | clients/vscode/hunks.js:42-43 | For hunks with separate windows, listed in any order, the loop raises exactly when some hunk's new side is not in the file |
| `HunkRejection.SortIsSorted` | clients/vscode/hunks.js:38-38 | The sort yields a descending permutation |
| `HunkRejection.ContentRoundTrip` | clients/vscode/hunks.js:35-46 | With no hunks the content comes back unchanged |
| `HunkRejection.LinesRoundTrip` | clients/vscode/hunks.js:35-46 | Rendered lines are read back as the same lines |
| `HunkParsing.ParseFileHunks` | clients/vscode/hunks.js:3-32 | The index-moving loops compute the declarative parse, errors included |
| `HunkParsing.ReadSection` | clients/vscode/hunks.js:11-29 | The nested loops collect the hunks of the section in order |
| `HunkParsing.HeaderRoundTrip` | clients/vscode/hunks.js:13-24 | A printed hunk header is recognised if and only if its heading holds no line terminator, and then parses to its numbers and heading |
| `HunkParsing.CarriageReturnHidesHeader` | clients/vscode/hunks.js:13-14 | A header whose heading is a carriage return opens a hunk but is not recognised |
| `HunkParsing.ParsePrinted` | clients/vscode/hunks.js:3-32 | Parsing a printed diff of several files for one path gives exactly those hunks of that file whose heading holds no line terminator, renumbered in order, and raises when there are none |
| `HunkParsing.ParseMissing` | clients/vscode/hunks.js:6-7 | A path that is not in the diff is refused |
| `HunkParsing.ParseThenRejectSeen` | clients/vscode/hunks.js:3-47 | Parsing a printed file and rejecting all that was parsed gives the original lines with the unrecognised hunks applied, if and only if every recognised deletion below the first line repeats the line above it |
| `HunkParsing.ParseThenRejectAll` | clients/vscode/hunks.js:3-47 | When every header is recognised this restores the original lines, under the same condition |
| `Lines.JoinSplit` | clients/vscode/hunks.js:36-46 | Joining what was split gives the text back |
| `Lines.SplitJoin` | clients/vscode/hunks.js:36-46 | Splitting what was joined gives the lines back |
| `Sse.DrainSse` | clients/vscode/protocol.js:15-32 | The loop computes the recursive drain, a malformed frame included |
| `Sse.ChunkingIsInvisible` | clients/vscode/extension.js:244-251 | For every split of a stream into pieces, draining piece by piece gives the events and the remainder of draining it whole |
| `Sse.DrainConcat` | clients/vscode/protocol.js:15-32 | Draining a concatenation is draining the first part and then its remainder with the second |
| `Sse.RemainderHasNoBoundary` | clients/vscode/protocol.js:18-31 | No remainder holds a frame boundary |
| `Sse.DrainEncoded` | crates/daemon/src/lib.rs:21595-21606 | The frames that the daemon writes are read back as their events, with nothing left over |
| `Sse.CutStream` | clients/vscode/extension.js:244-251 | A stream cut anywhere, in any pieces, delivers a prefix of its events |
| `Sse.ReduceEventCursor` | clients/vscode/protocol.js:34-43 | An accepted event moves the cursor forward to it; a seen one leaves the cursor; bad numbers are refused |
| `Subscription.Subscriber.Select` | clients/vscode/extension.js:232-238 | A change of scope loads that scope's stored cursor, or zero |
| `Subscription.Subscriber.HandleEvent` | clients/vscode/extension.js:251-259 | An event is handled and stored exactly when it is newer than the cursor |
| `Subscription.Subscriber.Connect` | clients/vscode/extension.js:229-263 | A connection handles and stores exactly what its pieces deliver, one after the other, up to the first malformed frame |
| `Subscription.ReceiveIsAbsorb` | clients/vscode/extension.js:244-260 | When the pieces drain without error, that is what absorbing the whole stream in one piece delivers |
| `Subscription.ServedEvents` | clients/vscode/extension.js:251-259 | From a log served in order with replays, exactly the entries above the cursor are handled, once each |
| `Subscription.ConnectionProgress` | clients/vscode/extension.js:229-263 | One connection, cut anywhere, handles the log entries from the old cursor to the new one |
| `Subscription.ConnectionKeeps` | clients/vscode/extension.js:229-263 | A connection of one scope keeps exactly-once delivery in every scope |
| `Subscription.Subscribe` | clients/vscode/extension.js:222-267 | Over any number of connections and scopes, the handled events of each scope are the log entries above its starting cursor up to its current one, in order, once each, and no cursor falls |
| `Approvals.ApprovalQueue.Add` | clients/vscode/approvals.js:25-27 | A request is added exactly when its id is not pending |
| `Approvals.ApprovalQueue.First` | clients/vscode/approvals.js:29-29 | The first entry that is not being decided, if any |
| `Approvals.ApprovalQueue.Replace` | clients/vscode/approvals.js:31-33 | New entries take over, none of them deciding, and unfinished decisions are kept track of |
| `Approvals.ApprovalQueue.RemoveById` | clients/vscode/approvals.js:35-38 | Exactly the entries with the id leave; an empty id removes nothing |
| `Approvals.ApprovalQueue.RemoveByToolCall` | clients/vscode/approvals.js:40-43 | Exactly the entries of the tool call leave; a missing id removes nothing |
| `Approvals.ApprovalQueue.DecideStart` | clients/vscode/approvals.js:46-55 | A call starts exactly for a pending entry that is not deciding and, when approving an exact-target tool, whose non-blank target was reviewed; it is the first entry with that id, which is then deciding |
| `Approvals.ApprovalQueue.DecideSucceed` | clients/vscode/approvals.js:55-57 | The entry itself leaves the queue, and no other |
| `Approvals.ApprovalQueue.DecideFail` | clients/vscode/approvals.js:58-61 | The entry is free again, and the queue is unchanged |
| `ApprovalRuns.Run` | clients/vscode/approvals.js:22-63 | Over every interleaving the queue, its started calls, its unfinished calls and its successes are exactly what folding the steps over numbered requests gives; an entry is deciding exactly when one unfinished call holds it, and no entry has two |
| `ApprovalRuns.MovesLikeWorld` | clients/vscode/approvals.js:22-63 | Any sequence of steps on entry objects moves as the fold does, objects matching numbers |
| `ApprovalRuns.RunsAreSound` | clients/vscode/approvals.js:22-63 | In every reachable state no entry is pending twice or decided twice, a success is never pending again, every call was allowed, and a held pending entry is the first with its id |
| `ApprovalRuns.SharedIdHasLeft` | clients/vscode/approvals.js:46-61 | Two unfinished calls share an approval id only when one of their entries has left the queue |
| `ApprovalRuns.TwoCallsForOneId` | clients/vscode/approvals.js:25-55 | For every request with an id that may be decided: adding, deciding, removing by id, adding and deciding again leaves two unfinished calls for one id |
| `Bundle.LimitedReader.Read` | integrations/harbor/runtime.py:406-428 | The reader never releases more than its limit and passes on what the source gives while within it |
| `Bundle.ReadAll` | integrations/harbor/runtime.py:406-428 | Reading in pieces returns the whole stream exactly when it is within the limit |
| `Bundle.HeaderPasses` | integrations/harbor/runtime.py:340-374 | The header check passes exactly the plain files of the five expected names |
| `Bundle.ValidateSnapshot` | integrations/harbor/runtime.py:444-498 | Accepts exactly the archives that tile the stream, are distinct, plain, complete and within the size limit, and end in the least padding |
| `Bundle.EveryByteHasOneMember` | integrations/harbor/runtime.py:449-477 | Every byte in front of the end blocks belongs to exactly one member |
| `Bundle.ExactlyFiveMembers` | integrations/harbor/runtime.py:490-498 | An accepted archive has exactly the five members, once each |
| `Bundle.LimitIsSlack` | integrations/harbor/runtime.py:56-60 | An accepted stream is the least record multiple that holds the end blocks, and the reader's limit never refuses it |

## Left out

- `AgentRun.Run`: observer events, tool definitions and the DiscoveredTools answer (which differs from a completion only in the tool list), model routing and the detail of a pause are not modelled.
- `AgentRun.Run`: real time and the fairness of `select` are not modelled; each wait of the engine ends as its `CallWorld` says.
- `AgentRun.TurnRun.Dispatch`: a cancellation during the pause between two attempts is counted as one more dispatch, so the log can hold one request more than was sent.
- `Provider.StreamWithRetry`: which error a dispatch meets is a parameter; overflow packing is an arbitrary function that may also decline.
- `AgentRun.AnnouncedPausesAlone`: an executor may pause a call it had announced as not pausing, and then several calls of a wave may pause together.
- `Redaction.RedactText`: text is a byte string; that it is valid UTF-8 is assumed only in `Redaction.CutsAreBoundaries`.
- `HunkParsing.ParseFileHunks`: line numbers above 2^53, which JavaScript rounds, are exact here.
- `HunkRejection.RaisesExactlyOnMismatch`: for overlapping windows, equal line numbers and empty windows beyond the end of the file only what the loop computes is stated.
- `Sse.DrainSse`: decoding the byte stream as UTF-8 is not modelled; pieces are pieces of text.
- `Subscription.Subscribe`: a handler that throws and a failing store update are not modelled; a failed request or a cut stream is.
- `Bundle.ValidateSnapshot`: the member list and the number of bytes read are inputs; gzip, tar decoding, digests and the manifest are not modelled.
- Ed25519 batch signatures, AES-GCM, `redact` on JSON values, the API server, the command line, the web client and the rest of the editor extension.
