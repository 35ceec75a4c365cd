# Verified model of Lyre's runtime protocols

Lyre runs long-lived agents that may be killed at any instruction. This project models, in Dafny,
the protocols its guarantees rest on, and proves those guarantees over every input, every run and
every schedule of crashes.

| group | files | what is modelled |
|---|---|---|
| agent loop | `Messages`, `Compaction`, `CompactionLaws`, `CompactionMail`, `CompactionSeam`, `AgentLoop`, `AgentLoopLaws`, `AgentLoopBudgets`, `AgentLoopStops`, `AgentLoopVerdicts`, `AgentLoopHistory`, `AgentLoopCode` | `AgentLoop.run` as a step function over one oracle value per model turn, with every exit, nudge, guard and compaction; history compaction |
| translation and streaming | `Translators`, `TranslatorLaws`, `TranslatorWords`, `TranslatorsCode`, `ToolStream`, `ToolStreamCode` | both OpenAI history translations; assembly of streamed tool calls |
| durable store | `Transactions`, `Outbox`, `OutboxDelivery`, `OutboxFairness`, `OutboxCode` | interleaved steps of tasks sharing one connection; the outbox, the mailbox and the dispatcher, with kills between any two steps |
| timed rows | `Leases`, `RestartIntensity`, `HealthTracker` | task leases, the restart limiter, the circuit breaker |
| incremental readers | `TranscriptTail`, `LiveFold`, `MailWatcher` | transcript tailing, the live card's folder, the mail watcher |
| files | `NotesRotation`, `NotesLaws`, `NotesCode` | the notes file and its cold archive |
| shared | `Wrappers`, `Seqs` | options, results, sequence lemmas |

Each component has a specification (datatypes and functions), the code's own form (classes and
methods with loops, proved equal to the specification), and laws about the specification. Some laws
compare it with a reference of their own, over blocks, turns, lines or statements, that shares none
of its functions, so that what an operation produces is told in other words than its body's. `dafny
verify dfyconfig.toml` checks everything.

The world outside is a parameter: the clock, the model's turns, tool handlers, the summary model,
JSON encoding and decoding, the blob store, file failures, kills and the scheduling of tasks are
arbitrary values or arbitrary step sequences that every result ranges over.

## Results that differ from the source's own comments

- The restart limiter speaks of at most `max_restarts` within a sliding window. Its window has a
  fixed start. The documented bound holds of every run and every interval if and only if
  `max_restarts` or `max_seconds` is not positive, or every restart brings a negative lifetime limit
  (`DocumentedBoundIff`); of the runs in which no escalation comes before the first restart it
  holds also when `max_restarts` is 1 (`DocumentedBoundCountedIff`). Otherwise the bound is twice
  `max_restarts`, one fewer without such an escalation, and both are reached (`RestartsAreBounded`,
  `BoundsAreReached`).
- The live folder's clipping agrees with clipping a run once exactly when `max_open_chars` is
  positive (`ClipFoldsIff`).
- The mail watcher reads 100 messages and then filters by urgency, so 100 messages below the floor
  just past its cursor hide everything after them for good (`BlockedForever`); `RoundSurfacesIff`
  says exactly which messages a round surfaces.
- Compaction does not always keep mail verbatim. A fetch in the elided range keeps its mail exactly
  when its id is not blank (or it brought none) and the last result in the range with that id holds
  the same mail (`FetchKeptIff`); the record is kept, with no fetch given another's mail, exactly
  when that holds of every elided fetch (`CompactKeepsMailIff`), and over a whole run exactly when
  it holds at every compaction (`MailSurvivesEveryRun`). With distinct non-blank ids in the range it
  is kept exactly when no fetch with a blank id brought a mail (`DistinctIdsKeepMailIff`). Both
  failures are real for all mails: `BlankIdLosesMail`, `ReusedIdLosesMail`.
- Notes rotation loses nothing when wakeup ids (the first 8 hex digits) are distinct. In general a
  finished rotation keeps every entry if and only if each overflow entry whose id is archived is
  itself archived or still in the notes (`RotationKeepsAllIff`), and a run loses none exactly when
  all its rotations meet that (`RunKeepsAllIff`). With any two equal ids the second entry can end up
  in neither file (`CollidingIdIsLost`).
- A stand-alone write is durable when its mutator returns unless another task's block rolled back
  first; the exception is real (`OtherRollbackLosesWrite`). A row marked dispatched is delivered
  under exactly that condition on its insert (`MarkedIsDeliveredIff`, `MarkedButLost`).
- The first stop request does not always win: it does if and only if the dead-loop guard did not
  trip or its own request was the first (`FirstRequestWinsIff`). For every threshold a request
  raised while the tripping turn runs is overridden (`BailOverridesRequest`).
- A terminal task status is not absorbing. It is kept if and only if every later claim of the task
  meets a lease that is neither released nor past its deadline and no status write moves it
  (`TerminalStaysIff`); claims never look at the status (`ClaimIgnoresStatus`), and every new task has
  a run that loses it (`TerminalIsLost`).
- The Responses translation keeps every call's arguments if and only if every call's input encodes
  (`ResponsesAreExactIff`); one that does not goes out with none.

## Model

| member | source | states |
|---|---|---|
| `Compaction.FindPivot` | src/lyre/runtime/compact.py:95-109 | the backward scan returns the position where the last k assistant messages start, 1 when there are fewer, the length when k is not positive |
| `Compaction.PivotUnique` | src/lyre/runtime/compact.py:95-109 | that position is unique, so the scan's result is determined |
| `Compaction.SynthMailIn` | src/lyre/runtime/compact.py:233-261 | a fetched mail becomes a user artifact that ends in the body verbatim, exactly when the result is a non-empty parseable object and no error |
| `Compaction.SynthMailOut` | src/lyre/runtime/compact.py:264-296 | a sent mail becomes an assistant artifact that ends in the body verbatim, exactly when the body is a string |
| `Compaction.IndexResults` | src/lyre/runtime/compact.py:185-193 | the first pass indexes the elided results by id, the last one of an id winning and blank ids left out |
| `Compaction.ExtractCall` | src/lyre/runtime/compact.py:197-230 | what one elided tool call contributes under the tool's policy: a mail artifact, a trace line or nothing |
| `Compaction.ExtractSyntheticHistory` | src/lyre/runtime/compact.py:172-230 | the two passes yield the mail and the work lines of every elided call, in order |
| `Compaction.CompactMessages` | src/lyre/runtime/compact.py:112-169 | the compacted history is the first message, carried artifacts, mail, at most one summary, and the tail from the pivot; a history too short is returned as it is |
| `CompactionLaws.CompactKeepsShape` | src/lyre/runtime/compact.py:112-169 | compacting a well-paired history whose artifacts lead gives another such history: every call still answered at once, no answer elsewhere |
| `CompactionLaws.CompactKeepsEnds` | src/lyre/runtime/compact.py:112-169 | the first message and the whole tail from the pivot survive unchanged, and the tail has exactly k assistant messages when there are k |
| `CompactionLaws.CompactIdempotent` | src/lyre/runtime/compact.py:95-169 | compacting again with the same k, whatever the summary model says, changes nothing |
| `CompactionSeam.CompactionInserts` | src/lyre/runtime/compact.py:112-169 | told from the elided blocks: a compaction puts in the artifacts that were there, the mail of the new calls in order, and a seam unless artifacts are there and the new calls left no work; the seam ends in the summary model's text, or in the first 40 lines of work when there is none, and only then the outcome is degraded |
| `CompactionSeam.NothingToElide` | src/lyre/runtime/compact.py:130-137 | fewer than 3 messages, or nothing between the first and the last k assistant turns: the history comes back as it is |
| `CompactionSeam.CallsAreWork` | src/lyre/runtime/compact.py:197-230 | every elided call that is neither mail nor a listing or progress note is a line of that work |
| `CompactionSeam.MailInTells` | src/lyre/runtime/compact.py:242-257 | the first line of a fetched mail's artifact: sender, number, urgency, what it replies to, title |
| `CompactionSeam.MailOutTells` | src/lyre/runtime/compact.py:269-290 | the first line of a sent mail's artifact: recipients, what it replies to, urgency, delivery time, recurrence |
| `CompactionSeam.MailTexts` | src/lyre/runtime/compact.py:258-261 | an artifact is that line and then the body |
| `CompactionMail.LookupIsLast` | src/lyre/runtime/compact.py:185-193 | looking up a non-blank id gives the outcome of the last result with that id |
| `CompactionMail.FetchKeptIff` | src/lyre/runtime/compact.py:185-213 | call by call, compaction makes of an elided fetch the mail of its own result exactly when its id is blank and it has none, or the last result with its id gives the same mail; it makes mail of a fetch without one exactly when the id is reused by a result that has one |
| `CompactionMail.CompactKeepsMailIff` | src/lyre/runtime/compact.py:112-230 | the ordered mail record is kept and no fetch is given another's mail, if and only if every fetch in the elided range meets that condition; ids of other tools, of the kept tail and of the rest do not matter |
| `CompactionMail.DistinctIdsKeepMailIff` | src/lyre/runtime/compact.py:112-230 | with distinct non-blank ids in the elided range the record is kept if and only if no elided fetch with a blank id brought a mail |
| `CompactionMail.CompactAgainst` | src/lyre/runtime/compact.py:133-169 | a further compaction keeps a complete record complete exactly when every elided fetch is kept, and a record that lost a mail never matches again |
| `CompactionLaws.CompactKeepsIds` | src/lyre/runtime/compact.py:112-169 | compaction introduces no tool result id, so unique ids stay unique |
| `CompactionMail.BlankIdLosesMail` | src/lyre/runtime/compact.py:187-213 | any mail fetched under a blank tool id is lost when its fetch is elided |
| `CompactionMail.ReusedIdLosesMail` | src/lyre/runtime/compact.py:185-213 | of any two mails fetched under one id the first is lost when both are elided: the second result stands for both |
| `AgentLoopLaws.ToolExchangePaired` | src/lyre/runtime/agent_loop.py:660-721 | an assistant message and the tool results built for it are well paired |
| `AgentLoopLaws.InterruptedTurnKeepsInv` | src/lyre/runtime/agent_loop.py:558-602 | the interrupt drain and its notice keep the history well paired and its artifacts in front |
| `AgentLoopLaws.NoToolTurnKeepsInv` | src/lyre/runtime/agent_loop.py:604-655 | so do the post-turn notice and the silent-turn nudge |
| `AgentLoopLaws.ToolTurnKeepsInv` | src/lyre/runtime/agent_loop.py:657-924 | so do tool execution, both nudges, the dead-loop guard and compaction |
| `AgentLoopLaws.RunKeepsInv` | src/lyre/runtime/agent_loop.py:464-937 | every run keeps that invariant |
| `AgentLoopLaws.EveryHistorySentIsPaired` | src/lyre/runtime/agent_loop.py:464-502 | on every run, each history handed to the model is well paired |
| `AgentLoopLaws.RunShadows` | src/lyre/runtime/agent_loop.py:464-937 | a run and the same run that never compacts stay in step: same appended messages, same counters, same exit |
| `AgentLoopLaws.MailSurvivesEveryRun` | src/lyre/runtime/agent_loop.py:839-924 | for every interleaving of turns and compactions: the final mail record equals that of the same run never compacted, and no fetch was given another's mail, if and only if every fetch that a compaction elided was kept; exit and number of turns agree in any case |
| `AgentLoopLaws.UniqueIdsSurvive` | src/lyre/runtime/agent_loop.py:839-924 | in particular mail survives every run whose tool ids are present and unique |
| `AgentLoopBudgets.BudgetsHold` | src/lyre/runtime/agent_loop.py:628-654 | at most 2 silent-turn nudges and 3 compactions on every run |
| `AgentLoopBudgets.RunBooks` | src/lyre/runtime/agent_loop.py:525-534 | the calls, fingerprints and sent histories that a run records are exactly those of the turns it executed |
| `AgentLoopBudgets.FingerprintTells` | src/lyre/runtime/agent_loop.py:730-750 | a fingerprint counts a turn's calls by name and input, whatever their order; calls whose arguments could not be decoded count by name alone |
| `AgentLoopBudgets.DeadLoopIsBounded` | src/lyre/runtime/agent_loop.py:723-788 | no call fingerprint repeats more than T+1 times in a row; the guard ends the run exactly at T+1, as needs_continuation whatever else was requested |
| `AgentLoopStops.StepStop` | src/lyre/runtime/agent_loop.py:464-788 | a turn leaves the request that stood or else the first one raised in it, except that a dead-loop bail leaves the guard's |
| `AgentLoopStops.StopsAtOnce` | src/lyre/runtime/agent_loop.py:467-481 | the model is called in a turn exactly while no request stands at its boundary, and a run that stops there has met one |
| `AgentLoopStops.FirstRequestWinsIff` | src/lyre/runtime/agent_loop.py:381-389 | every run ends with the first request raised over its turns, by others or by the guard, if and only if the guard did not trip or its request was the first; it trips exactly when the last T+1 tool turns made the same calls |
| `AgentLoopStops.OverriddenInLastTurn` | src/lyre/runtime/agent_loop.py:776-779 | a request that is overridden was raised while the tripping turn ran, and the run finishes as needs_continuation instead of its target |
| `AgentLoopStops.WinningRequestIsVerdict` | src/lyre/runtime/agent_loop.py:945-979 | while the guard did not trip, the first request decides the verdict |
| `AgentLoopStops.BailOverridesRequest` | src/lyre/runtime/agent_loop.py:776-779 | for every threshold, every start, every quiet tool turn and every request raised while its last repetition runs, that request is the first and the guard's stands in its place |
| `AgentLoopBudgets.RunExit` | src/lyre/runtime/agent_loop.py:464-937 | what each way out of the loop implies; the no-tool exit is taken only by a last turn without calls, interrupt or waiting mail |
| `AgentLoopBudgets.CompletedIsEarned` | src/lyre/runtime/agent_loop.py:945-979 | completed is returned exactly when no stop was requested and the last turn had no tool call and stop reason end_turn, silent close excepted |
| `AgentLoopVerdicts.RunLeavesBy` | src/lyre/runtime/agent_loop.py:464-937 | how every run leaves the loop, told from its turns: the first two silent turns are nudged, three full windows are compacted and the fourth ends the run, a turn without calls ends it when no mail waits and no nudge is due |
| `AgentLoopVerdicts.VerdictIsDeserved` | src/lyre/runtime/agent_loop.py:945-979 | the verdict of every run, told from its turns: a dead loop, used-up turns and a last stop reason other than end_turn need continuation, the first request decides, a fourth full window and an unheard last turn are silent closes, the rest is completed |
| `AgentLoopHistory.HistoryIsStory` | src/lyre/runtime/agent_loop.py:464-924 | for every run, told from its turns: every notice, thought, word, call, result and nudge is appended in order, the working history is that with its compactions, and each turn sends the working history with its notice |
| `AgentLoopCode.AgentLoop.RequestStopOnce` | src/lyre/runtime/agent_loop.py:381-389 | the first stop request stands, later ones change nothing |
| `AgentLoopCode.AgentLoop.InjectBlockerNotice` | src/lyre/runtime/agent_loop.py:1021-1048 | a waiting notice becomes one user message at the end of the history |
| `AgentLoopCode.AgentLoop.AppendAssistantMessage` | src/lyre/runtime/agent_loop.py:1050-1080 | thinking, text and calls become one assistant message in that order, and nothing becomes none |
| `AgentLoopCode.AgentLoop.DispatchTools` | src/lyre/runtime/agent_loop.py:676-721 | the calls' results, each with its view blocks, become one user message, and a user-facing tool is remembered |
| `AgentLoopCode.AgentLoop.GuardDeadLoop` | src/lyre/runtime/agent_loop.py:730-788 | the guard's counters, nudge and bail are those of the specification the laws are about |
| `AgentLoopCode.AgentLoop.CompactIfNeeded` | src/lyre/runtime/agent_loop.py:839-924 | compaction, its failure and the thrash bail are those of the specification |
| `AgentLoopCode.AgentLoop.HandleInterrupt` | src/lyre/runtime/agent_loop.py:558-602 | the mid-stream path is that of the specification |
| `AgentLoopCode.AgentLoop.HandleNoTools` | src/lyre/runtime/agent_loop.py:604-655 | the no-tool path is that of the specification |
| `AgentLoopCode.AgentLoop.Iterate` | src/lyre/runtime/agent_loop.py:464-924 | one iteration of the loop is one step of the specification |
| `AgentLoopCode.AgentLoop.Conclude` | src/lyre/runtime/agent_loop.py:945-979 | exactly when the close is silent, and the status in every case, late stop requests included |
| `AgentLoopCode.AgentLoop.RunLoop` | src/lyre/runtime/agent_loop.py:395-979 | the whole run and its turn count are those of the specification, its verdict the one its turns deserve |
| `TranslatorLaws.ChatKeepsToolTrace` | src/lyre/adapter/openai.py:260-403 | on a well-paired history the Chat output has the history's calls and results in order, and every assistant message's calls are answered directly after it, one tool message each, none elsewhere |
| `TranslatorLaws.ResponsesKeepToolTrace` | src/lyre/adapter/openai_responses.py:301-434 | the same of the Responses output: each run of calls is followed directly by its outputs; a call whose input does not encode counts here as one without arguments |
| `TranslatorLaws.ResponsesAreExactIff` | src/lyre/adapter/openai_responses.py:399-412 | the Responses output has every call with the encoding of its own input if and only if every call's input encodes |
| `TranslatorLaws.TracesKept` | src/lyre/adapter/openai.py:275-403 | message by message, neither translation adds, drops or reorders a call or a result, nor alters one, apart from the arguments that Responses cannot encode |
| `TranslatorWords.ChatTellsHistory` | src/lyre/adapter/openai.py:260-403 | read back, the Chat output is the system text and then, message by message, each user's answers, joined texts and images and each assistant's joined texts and calls, told from the blocks |
| `TranslatorWords.ResponsesTellHistory` | src/lyre/adapter/openai_responses.py:301-434 | the same of the Responses output, texts on lines of their own |
| `TranslatorLaws.TranslationsFailAlike` | src/lyre/adapter/openai_responses.py:354-375 | each translation fails with a given error exactly when the first block of a user message that cannot go out raises it: a document, an image that names no blob or meets no store, a blob that cannot be read |
| `TranslatorsCode.SortUserBlocks` | src/lyre/adapter/openai.py:287-336 | one pass over a user message's blocks yields its results, its texts and its images, or the first error |
| `TranslatorsCode.SortAssistantBlocks` | src/lyre/adapter/openai.py:353-381 | one pass over an assistant message's blocks yields its texts and its calls |
| `TranslatorsCode.TranslateChat` | src/lyre/adapter/openai.py:260-403 | the loop computes the translation the laws are about |
| `TranslatorsCode.TranslateResponses` | src/lyre/adapter/openai_responses.py:301-434 | the loop computes the translation the laws are about |
| `ToolStream.StreamIsAssembled` | src/lyre/adapter/openai.py:122-242 | however fragments interleave, the events about a call are those of its own fragments, completed calls come after all deltas in order of first appearance, and the one TurnComplete is last |
| `ToolStream.InterleavingDoesNotMatter` | src/lyre/adapter/openai.py:168-204 | two streams with the same fragments per call tell the same story per call and complete the same calls, in the same order when the calls first appear in the same order |
| `ToolStream.OneStartOneComplete` | src/lyre/adapter/openai.py:169-228 | a call that is ever named starts once and completes once with the decoded concatenation of its argument fragments; one never named does neither |
| `ToolStream.FlushShape` | src/lyre/adapter/openai.py:209-242 | the end of the stream is the completed calls, then at most a thinking block and the usage, then TurnComplete |
| `ToolStream.CallIsTold` | src/lyre/adapter/openai.py:169-200 | the events of one call, fragment by fragment: a start when it is first named and a delta per piece of arguments, under the id known by then |
| `ToolStream.StreamSays` | src/lyre/adapter/openai.py:140-242 | every text and thought of the chunks is emitted in order; the stream ends with all thoughts in one block, the last usage, and the stop reason that the last finish reason stands for |
| `ToolStreamCode.Assembler.FeedBuffer` | src/lyre/adapter/openai.py:174-200 | one fragment updates its call's buffer and emits its start and delta |
| `ToolStreamCode.Assembler.TakeFragment` | src/lyre/adapter/openai.py:169-200 | one fragment changes its own buffer only, and a new index goes last |
| `ToolStreamCode.Assembler.TakeChunk` | src/lyre/adapter/openai.py:140-204 | usage, text, reasoning, fragments and finish reason of one chunk, in that order |
| `ToolStreamCode.StreamTurn` | src/lyre/adapter/openai.py:122-242 | the whole stream emits what the specification says |
| `Transactions.BlocksAreAtomic` | src/lyre/persistence/sqlite_impl.py:2730-2772 | over any schedule, kills included, durable state holds all writes of each committed block in order and none of any other |
| `Transactions.OutcomeIsFinal` | src/lyre/persistence/sqlite_impl.py:2759-2772 | a block that committed or rolled back stays that way and its writes are settled |
| `Transactions.DurableOnlyGrows` | src/lyre/persistence/sqlite_impl.py:107-108 | a commit puts the open transaction behind what is durable, and no other step touches that |
| `Transactions.DurableInOrder` | src/lyre/persistence/sqlite_impl.py:2759-2772 | over every schedule the durable writes are exactly those whose first boundary is a commit, in the order of execution across tasks and commits |
| `Transactions.FateIsFirstBoundary` | src/lyre/persistence/sqlite_impl.py:77-108 | an executed write becomes durable exactly when the first commit or rollback after it is a commit, whoever's it is |
| `Transactions.StandAloneDurability` | src/lyre/persistence/sqlite_impl.py:98-108 | a stand-alone write is durable when its mutator returns unless the first boundary after it was another task's block rolling back |
| `Transactions.OtherRollbackLosesWrite` | src/lyre/persistence/sqlite_impl.py:98-108 | whenever a block is about to roll back, a write another task executes before that is lost although its mutator returns |
| `Transactions.MarkedIsDeliveredIff` | src/lyre/outbox/dispatcher.py:105-109 | on the shared connection, a message whose insert returned before its row was marked is delivered for good if and only if the first boundary after the insert was not another task's rollback |
| `Transactions.MarkedButLost` | src/lyre/outbox/dispatcher.py:105-109 | whenever a block of another task is about to roll back, a delivery can be lost and its row be marked durably all the same |
| `Transactions.LockIsLive` | src/lyre/persistence/sqlite_impl.py:90-108 | no holder of the commit lock waits for it, the holder always has a step, and a free lock can be taken by every waiter |
| `Transactions.SharedConnection.ExecuteMutator` | src/lyre/persistence/sqlite_impl.py:98-108 | a mutator's statements join the open transaction, and inside a block its commit is a no-op |
| `Transactions.SharedConnection.EnterTransaction` | src/lyre/persistence/sqlite_impl.py:2751-2764 | a nested block joins the outer one, an outermost one waits for the lock |
| `Transactions.SharedConnection.AcquireLock` | src/lyre/persistence/sqlite_impl.py:90-108 | taking the lock starts the block or the stand-alone commit |
| `Transactions.SharedConnection.LeaveTransaction` | src/lyre/persistence/sqlite_impl.py:2764-2772 | an outermost block commits once, its writes behind what is durable, or rolls everything back when its body raised |
| `Transactions.SharedConnection.CommitStandAlone` | src/lyre/persistence/sqlite_impl.py:107-108 | a stand-alone commit makes everything pending durable, behind what is durable already |
| `OutboxDelivery.RunKeepsInv` | src/lyre/outbox/dispatcher.py:91-183 | every schedule keeps: dispatched rows delivered, keys unique, every dispatcher-made row traced to an outbox row, outbox rows unique |
| `OutboxDelivery.DeliveryAcrossKills` | src/lyre/outbox/dispatcher.py:91-183 | over any schedule of enqueues, ticks, failures and kills a dispatched row has a mailbox row for every key it addresses, no key has two rows, and every dispatcher-made row is word for word a message of an enqueued row |
| `OutboxDelivery.DispatchedMailIsRight` | src/lyre/outbox/dispatcher.py:142-183 | over any schedule a dispatched row whose keys are its own has each mail it asks for exactly once, field by field: recipient, external id, sender, urgency, title, body and task with their fallbacks; and the dispatcher delivers nothing that no row asks for |
| `OutboxDelivery.RowRecords` | src/lyre/persistence/sqlite_impl.py:2168-2187 | over any schedule a row counts its failures one by one, is dispatched exactly once it was marked, and never changes what it asks for |
| `OutboxDelivery.OutboxFollowsCalls` | src/lyre/persistence/sqlite_impl.py:2124-2142 | which rows the outbox holds is decided by the enqueue calls alone, duplicates dropped |
| `OutboxDelivery.DrainedMail` | src/lyre/outbox/dispatcher.py:142-183 | with distinct keys a drained outbox has delivered exactly the messages asked for, up to order |
| `OutboxDelivery.KillsDoNotShow` | src/lyre/outbox/dispatcher.py:91-128 | two drained schedules with the same enqueues deliver the same mail up to order, so kills and failures do not show |
| `OutboxFairness.BatchIsFirst` | src/lyre/persistence/sqlite_impl.py:2144-2153 | a batch is the first undispatched rows by attempts, age and id; a row left out waits behind a full batch of rows all before it |
| `OutboxFairness.TicksReachRow` | src/lyre/outbox/dispatcher.py:91-128 | the bound as an invariant of single steps, from any state and with a tick in flight |
| `OutboxFairness.FreshRowIsReached` | src/lyre/persistence/sqlite_impl.py:2144-2187 | a never-attempted row with p never-attempted rows ahead is attempted within ceil((p+1)/limit) completed ticks, however many rows fail or arrive |
| `OutboxCode.Database.Enqueue` | src/lyre/persistence/sqlite_impl.py:2124-2142 | rows whose kind and external id are new are appended in order, the others change nothing |
| `OutboxCode.Database.InsertMessage` | src/lyre/persistence/sqlite_impl.py:1553-1587 | a new key is appended and its id returned; a taken key changes nothing and returns -1 |
| `OutboxCode.Database.Dequeue` | src/lyre/persistence/sqlite_impl.py:2144-2166 | the query's rows, in its order |
| `OutboxCode.Database.ProcessRow` | src/lyre/outbox/dispatcher.py:105-128 | one row is delivered, then marked, or failed; its steps are legal steps of the machine under every fault |
| `OutboxCode.Database.RunTick` | src/lyre/outbox/dispatcher.py:91-128 | one tick under any faults is a legal run of the machine, row by row, and returns how many rows it marked |
| `Leases.ClaimsAreSeparated` | src/lyre/persistence/sqlite_impl.py:506-555 | two successful claims of a task are separated by the first holder's release or by the passing of its last renewed deadline |
| `Leases.NextClaimSucceedsIff` | src/lyre/persistence/sqlite_impl.py:506-555 | while no other claim succeeds, a claim succeeds exactly when the holder released the task or its deadline passed |
| `Leases.SupersededIsFenced` | src/lyre/persistence/sqlite_impl.py:529-631 | after another worker's claim no renewal, release, checkpoint or fenced status write of the first changes anything, and the table ends as if it had tried none |
| `Leases.HolderOwnsCheckpoint` | src/lyre/persistence/sqlite_impl.py:557-569 | while a worker keeps its lease the checkpoint is the last one it wrote |
| `Leases.ClaimSucceedsIffGone` | src/lyre/persistence/sqlite_impl.py:506-555 | from any state of a task and after any run without a successful claim, a claim succeeds if and only if the lease was never there, was released, or its last renewed deadline passed |
| `Leases.TerminalStaysUnless` | src/lyre/persistence/sqlite_impl.py:506-785 | a terminal status stays through a run if and only if no claim of the task succeeds and no status write moves it; park, request_resume and resume never touch a terminal task |
| `Leases.TerminalStaysIff` | src/lyre/persistence/sqlite_impl.py:506-785 | the same with the claims' half in terms of lease events and times: every claim of the task comes while the lease is held, neither released nor past its last renewed deadline |
| `Leases.RunKeepsLeaseShape` | src/lyre/persistence/sqlite_impl.py:506-555 | every table reached from the empty one sets the two lease columns together, which `ClaimSucceedsIffGone` and `TerminalStaysIff` take of the row they start from |
| `Leases.TerminalIsLost` | src/lyre/persistence/sqlite_impl.py:506-631 | from every table, for every new task, two claims with a fenced terminal status and a release between them leave the task in progress |
| `Leases.TaskLives` | src/lyre/persistence/sqlite_impl.py:506-785 | over every run a task's status, readiness to resume, completion, cancel reason and recoveries are those of its statements, one by one |
| `Leases.TaskIsStamped` | src/lyre/persistence/sqlite_impl.py:506-785 | a row is stamped with the time of the last statement that changed it |
| `Leases.NewTaskLives` | src/lyre/persistence/sqlite_impl.py:474-497 | a new task is pending, under no lease, and nothing else changes |
| `Leases.ClaimIgnoresStatus` | src/lyre/persistence/sqlite_impl.py:511-522 | give a task any other status: after any run, a claim of it succeeds exactly as it would have |
| `Leases.ResumedOncePerRequest` | src/lyre/persistence/sqlite_impl.py:667-785 | between two successful resumes of a task a resume was requested anew |
| `Leases.TaskRepository.ClaimLease` | src/lyre/persistence/sqlite_impl.py:506-527 | the guarded update and its answer |
| `Leases.TaskRepository.RenewLease` | src/lyre/persistence/sqlite_impl.py:529-544 | the guarded update and its answer |
| `Leases.TaskRepository.ReleaseLease` | src/lyre/persistence/sqlite_impl.py:546-555 | the guarded update |
| `Leases.TaskRepository.UpdateCheckpoint` | src/lyre/persistence/sqlite_impl.py:557-569 | the guarded update |
| `Leases.TaskRepository.UpdateStatus` | src/lyre/persistence/sqlite_impl.py:603-631 | fenced or not, the guarded update and its answer |
| `Leases.TaskRepository.ParkTask` | src/lyre/persistence/sqlite_impl.py:645-665 | the guarded update and its answer; the lease columns stay |
| `Leases.TaskRepository.FlagResume` | src/lyre/persistence/sqlite_impl.py:667-683 | the guarded update and its answer |
| `Leases.TaskRepository.ResumeTask` | src/lyre/persistence/sqlite_impl.py:767-785 | the guarded update and its answer |
| `RestartIntensity.RestartsAreBounded` | src/lyre/persistence/sqlite_impl.py:2591-2651 | any closed interval of max_seconds holds at most 2*max_restarts allowed restarts, one fewer unless an escalation came before the first restart |
| `RestartIntensity.BoundsAreReached` | src/lyre/persistence/sqlite_impl.py:2614-2622 | when both limits are positive and there is room under the lifetime total, some calls reach both bounds |
| `RestartIntensity.DocumentedBoundIff` | src/lyre/persistence/sqlite_impl.py:2601-2605 | however restarts bring their lifetime limit: every interval of max_seconds of every run holds at most max_restarts allowed restarts, if and only if max_restarts or max_seconds is not positive or every restart brings a negative lifetime limit |
| `RestartIntensity.DocumentedBoundCountedIff` | src/lyre/persistence/sqlite_impl.py:2601-2605 | the same over the runs in which no escalation comes before the first restart, where max_restarts of 1 meets the bound too |
| `RestartIntensity.LifetimeIsBounded` | src/lyre/persistence/sqlite_impl.py:2623-2651 | when every charged restart brings a limit of at most n, and uncharged ones any or none as the scheduler has it, at most n charged restarts are ever allowed |
| `RestartIntensity.LifetimeIsReached` | src/lyre/persistence/sqlite_impl.py:2649-2651 | of enough charged restarts that no window holds back exactly as many are allowed as the limit says |
| `RestartIntensity.RowRecords` | src/lyre/persistence/sqlite_impl.py:2616-2662 | the row counts every charged restart, allowed or not, and keeps the last escalation |
| `RestartIntensity.SupervisionRow.BumpAndCheckIntensity` | src/lyre/persistence/sqlite_impl.py:2591-2651 | the row after a restart and the answer |
| `RestartIntensity.SupervisionRow.MarkEscalated` | src/lyre/persistence/sqlite_impl.py:2653-2662 | an escalation opens a row that counts nothing, or only stamps the one there is |
| `HealthTracker.DequeIsRecent` | src/lyre/runtime/health_tracker.py:59-93 | after each event the deque holds exactly the failures since the last success inside the window |
| `HealthTracker.TripsIff` | src/lyre/runtime/health_tracker.py:78-93 | the breaker trips exactly on enough such failures, or on a failure at least a cooldown after the last trip |
| `HealthTracker.ClosedIff` | src/lyre/runtime/health_tracker.py:78-101 | the circuit is closed exactly when no failure since the last success completed the threshold within a window |
| `HealthTracker.CircuitIs` | src/lyre/runtime/health_tracker.py:59-76 | over every log the circuit is closed before it trips, open for a cooldown after its last trip and half-open from then on |
| `HealthTracker.UnavailableForExactlyCooldown` | src/lyre/runtime/health_tracker.py:64-93 | without a success a tripped model is unavailable for exactly the cooldown, whatever fails meanwhile |
| `HealthTracker.ProbeFailureReopens` | src/lyre/runtime/health_tracker.py:86-93 | the first failure after the cooldown opens the circuit anew |
| `HealthTracker.Tracker.MarkFailure` | src/lyre/runtime/health_tracker.py:78-93 | prune, count and trip for one model, the others untouched |
| `HealthTracker.Tracker.State` | src/lyre/runtime/health_tracker.py:64-71 | closed, open or half-open at a given time |
| `TranscriptTail.TailingIsParsing` | src/lyre/transcript_tail.py:45-92 | for every interleaving of appends and polls the polls together return the parse of the complete lines read so far, from the start or just past the first newline at or after the jump; the buffer never keeps a newline |
| `TranscriptTail.PollCatchesUp` | src/lyre/transcript_tail.py:45-92 | after a poll that can read the file a reader without an initial tail has the parse of the whole file |
| `TranscriptTail.ParseConcat` | src/lyre/transcript_tail.py:80-92 | parsing may stop anywhere and resume with the unfinished line |
| `TranscriptTail.ParseIsLines` | src/lyre/transcript_tail.py:80-92 | parsing gives the events of the complete lines that are not blank and decode, in order |
| `TranscriptTail.LinesAreText` | src/lyre/transcript_tail.py:80-82 | those lines hold no newline and, each ended by one, are the text up to its unfinished line |
| `TranscriptTail.PollKeepsInv` | src/lyre/transcript_tail.py:50-79 | a poll, whichever way it ends, keeps the account of what was read |
| `TranscriptTail.TranscriptTailer.DrainLines` | src/lyre/transcript_tail.py:80-92 | the loop takes the complete lines off the buffer and returns their events |
| `TranscriptTail.TranscriptTailer.PollFile` | src/lyre/transcript_tail.py:45-92 | one poll, missing and vanishing files and the jump included |
| `LiveFold.FoldRefinesGrouping` | src/lyre/dashboard/activity.py:392-508 | for any split into calls the stored events are the newest of those that grouping the whole stream gives, each run clipped once; a snapshot adds the open run; at most one run is open |
| `LiveFold.ClipFoldsIff` | src/lyre/dashboard/activity.py:387-390 | clipping piece by piece equals clipping once exactly when max_open_chars is positive |
| `LiveFold.GroupAppend` | src/lyre/dashboard/activity.py:392-420 | one more row extends the open run or settles it, and nothing else |
| `LiveFold.WholeRunTells` | src/lyre/dashboard/activity.py:363-385 | the event of a run: its kind, its clipped text without the white space around it, when it began; a blank run makes none |
| `LiveFold.ClipTells` | src/lyre/dashboard/activity.py:387-390 | a long run is a mark and its last max_open_chars characters |
| `LiveFold.RowKeepsRep` | src/lyre/dashboard/activity.py:392-482 | ingesting a row keeps the folder's state standing for the stream so far |
| `LiveFold.LiveTranscriptFolder.FlushAssistantText` | src/lyre/dashboard/activity.py:363-373 | a run that is not blank becomes an event, and the buffer is cleared |
| `LiveFold.LiveTranscriptFolder.IngestRows` | src/lyre/dashboard/activity.py:392-482 | the loop over rows is the specification's fold |
| `LiveFold.LiveTranscriptFolder.TakeSnapshot` | src/lyre/dashboard/activity.py:484-508 | stored events, then the open runs |
| `MailWatcher.NothingTwiceNothingSkipped` | src/lyre/runtime/mail_watcher.py:83-127 | over any run the returned ids strictly increase and are exactly the messages at or above the floor between the first and the current cursor |
| `MailWatcher.RoundSurfacesIff` | src/lyre/persistence/sqlite_impl.py:1463-1476 | an undisturbed round surfaces a message exactly when it is at or above the floor and fewer than 100 messages of any urgency lie between the cursor and it |
| `MailWatcher.RoundSurfacesUrgent` | src/lyre/runtime/mail_watcher.py:37-38 | the same by the order low, normal, high, blocker, in which an unknown urgency is below them all |
| `MailWatcher.BlockedForever` | src/lyre/runtime/mail_watcher.py:106-127 | with 100 below-floor messages past the cursor the watcher returns nothing ever after, whatever arrives |
| `MailWatcher.ReadHasNoGap` | src/lyre/persistence/sqlite_impl.py:1463-1476 | the query's limit cuts off the newest messages and none in between |
| `MailWatcher.Watcher.AcknowledgeMail` | src/lyre/runtime/mail_watcher.py:83-94 | what was pending is returned and the cursor moves past all of it |
| `MailWatcher.Watcher.SiftMessages` | src/lyre/runtime/mail_watcher.py:109-127 | messages past the current cursor at or above the floor become pending, if there are any |
| `NotesLaws.NothingIsLost` | src/lyre/runtime/wakeup_summary.py:253-457 | over any run of appends and rotations, killed between their two writes or not, with distinct ids and any summaries: the archive is a prefix of the log of all that the appends wrote, the notes file reversed a suffix, together they cover it, and the text above stands |
| `NotesLaws.HandWrittenTextStands` | src/lyre/runtime/wakeup_summary.py:316-332 | neither operation changes the text up to the section header, and the archive only grows |
| `NotesLaws.NotesStayBounded` | src/lyre/runtime/wakeup_summary.py:389-457 | an append and a finished rotation leave at most max_entries entries |
| `NotesLaws.RotationKeepsHalf` | src/lyre/runtime/wakeup_summary.py:418-429 | a section of at most max_entries entries is left alone; a finished rotation of a longer one keeps half of max_entries, at least one |
| `NotesLaws.PointerIsLast` | src/lyre/runtime/wakeup_summary.py:449-457 | a finished rotation ends in its pointer to the archive, the only one below the section header |
| `NotesLaws.AppendBlocks` | src/lyre/runtime/wakeup_summary.py:316-336 | an append puts the entry in front of the section's others, with one entry more for each header-shaped line of its summary, creating the section at the end when there is none |
| `NotesLaws.RewriteBlocks` | src/lyre/runtime/wakeup_summary.py:427-457 | a finished rotation keeps the newest entries, up to blank lines, and the text above |
| `NotesLaws.ArchiveGains` | src/lyre/runtime/wakeup_summary.py:430-447 | with distinct ids the archive gains exactly the overflow it lacks, oldest first |
| `NotesLaws.SkippedIff` | src/lyre/runtime/wakeup_summary.py:438-441 | a rotation does not append an overflow entry exactly when its id is archived already |
| `NotesLaws.OverflowHeldIff` | src/lyre/runtime/wakeup_summary.py:427-457 | after a finished rotation an overflow entry is in neither file exactly when its id was archived but neither it nor an equal entry was in the archive or among those kept |
| `NotesLaws.RotationKeepsAllIff` | src/lyre/runtime/wakeup_summary.py:427-457 | a rotation keeps every entry of both files if and only if it is killed before the rewrite or no overflow entry clashes so |
| `NotesLaws.RunKeepsAllIff` | src/lyre/runtime/wakeup_summary.py:389-457 | over any run, colliding ids or not, no step loses an entry if and only if no finished rotation meets a clash, and then the end holds all that the start held |
| `NotesLaws.RerunLosesNothing` | src/lyre/runtime/wakeup_summary.py:427-441 | the rotation after a killed one skips all that was archived and loses nothing |
| `NotesLaws.CollidingIdIsLost` | src/lyre/runtime/wakeup_summary.py:272-273 | with any two entries of one id some run leaves the second in neither file |
| `NotesCode.NotesStore.AppendToNotes` | src/lyre/runtime/wakeup_summary.py:253-336 | the new text of the notes file |
| `NotesCode.NotesStore.ParseEntries` | src/lyre/runtime/wakeup_summary.py:418-425 | a text is cut at its entry headers |
| `NotesCode.NotesStore.MaybeRotateNotes` | src/lyre/runtime/wakeup_summary.py:389-457 | each early return, the archive append and the rewrite, under a kill between the two |

## Left out

- Agent loop bookkeeping: token totals, context peak, transcript writes, the phantom-delegation log and
  the addressees of the silent-close mail; none of them feeds back into the loop.
- Model failover inside one turn is part of the turn's oracle value; so are `_estimate_input_tokens` and
  the adapters' own streaming, apart from the tool-call assembly of `ToolStream`.
- The loop's locals are fields of the class `AgentLoop`, so that each path of `run` is a method of its own.
- Titles and other mail fields that are not strings, which make the original raise inside compaction, are
  covered by the turn's `compactFails`; nudge texts are abbreviated.
- CompactIdempotent: needs carried artifacts to be plain text, which every artifact the code makes is.
- Transactions: a mutator of several statements is one step, and child tasks that inherit the
  in-transaction flag are not modelled.
- `run_maintenance` and other code that calls `commit` outside the lock or deletes outbox rows.
- DeliveryAcrossKills: takes a delivery and a mark as one durable step each, so an insert that another
  task's rollback on the shared connection discards is not among its schedules; what holds then is
  `MarkedIsDeliveredIff`.
- Channel publishing: such an outbox row addresses no mailbox; its external effect is not modelled.
- Outbox payload fields that delivery copies without reading (`parent_msg_id`, `broadcast_id`,
  `recipients_all`, `metadata`, `attachments`), title derivation and the rendering of the tier-1 body.
- RunTick: covers a tick with nothing between its awaits; ticks interleaved with enqueues and other
  inserts are covered by the step machine, over which the delivery and fairness results range.
- FreshRowIsReached: counts ticks that start and finish after the moment considered, and takes the clock
  as non-decreasing.
- Lease times are whole milliseconds and durations are not negative; `find_expired_leases` and the
  scheduler's policy are not part of this model.
- `bump_and_check_intensity` reads and writes in two statements; here they are one step, and times are
  whole numbers.
- DequeIsRecent: needs a window of at least zero and a non-decreasing clock, and the results about trips
  a positive cooldown.
- FoldRefinesGrouping: needs `max_open_chars` positive, exactly the condition of `ClipFoldsIff`; rendering
  of tool and note cards, headlines and severities is not modelled.
- NothingTwiceNothingSkipped: takes ids as handed out in order, past the first cursor.
- TailingIsParsing: the file only grows, a byte count given for the initial tail is not negative, and
  JSON decoding is a function of the line.
- Notes files are lists of lines, so a missing final newline is not seen; what the patterns recognise in a
  line is part of the line; the one-time merge of stray notes, a failing read of the archive and torn
  writes are left out.
- NothingIsLost: compares entries up to blank lines at their end, which rotation adds. A pointer-shaped
  line of a summary is no part of its entry, since every later reading passes it over.
- TracesKept: takes the Chat encoding of a call's input, which falls back to `str`, as total.
- CollidingIdIsLost: takes summaries without header- or pointer-shaped lines.
- Pydantic models, CLI, dashboard routes, provider clients, provisioning and the scheduler.
