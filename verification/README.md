# Discode: the crash-tolerant protocol, modelled and proved

Discode bridges Discord threads to command-line coding tools. Four processes (bot, runner, dispatcher, janitor) share
Postgres rows and Redis streams, and any of them may crash, retry or be delivered the same message again. This project
models that protocol in Dafny and proves what it promises over every run.

## How the model is built

* `Lifecycle` holds the lifecycle columns of a session row and every guarded UPDATE that any process issues on them.
* `Durable` is the durable turn protocol of one session as a transition system: the row, the turn ledger, the outbox, the
  input stream, the advisory lock, and any number of handler tasks with program counters and the values they have read.
  Each SQL statement or transaction, each network call and each fault is one action; tasks interleave freely, and a crash
  may fall between any two actions. The three reads of a handler (session row, turn, earliest turn) and its later
  admission are separate actions. `DurableInvariant` and `DurableSteps` prove the inductive invariant, `DurableRuns` the
  theorems over whole runs, `DurableEnvelopes` where the envelope of an open turn is and what becomes of one that the
  relay has given up, `DurableVerdicts` that a handler's decision follows the ledger and the verdict of the workspace check,
  `DurableProgress` exactly when a live version can be worked off, and `World` lifts the theorems to all
  sessions.
* `SessionStore` is the same protocol as it is written: a class whose methods are the sagas, the sweeps, the input job and
  the resume job, one transaction at a time, with everything that others may do in between. Every method is proved to
  take only steps of the transition system and to keep its invariant. Here and in the other classes `Others` promises
  nothing but that others have taken steps of their own; what a procedure relies on after it (`Interfere`) is proved for
  every sequence of such steps.
* `Fences`, `MessageBuilder` and `MessageFormatting` are the message splitter; the loop of `build_message` is proved
  against a function that keeps the inserted parts of each chunk apart from the original text.
* `ReplyDelivery` (leased chunk delivery) and `TerminalNotice` (claim, act, finalize) are the two delivery protocols, each
  as a state machine with concurrent, failing and retried handlers, and as a class that refines it.
* `StreamTrim`, `Relay`, `JobConsumer` and `InputScheduler` are the stream plumbing.
* `RateLimiter` and `InputQuota` are the two rate limits, over real time.

History variables (`log`, `sent`, `eraStart`, `posts`, `sends`, `accidents`, `started`, the counters of a claim) record
what happened; no guard reads them.

## Where the code and its documentation differ, and what does not hold

* The runner's comment promises a bounded number of attempts even if the server's delivery count cannot be had. A dead
  letter whose own Redis transaction raises leaves the message pending, and the handler runs again before the budget is
  looked at, so the bound is `max_deliveries` plus the number of dead letters that raised: `RetriesAreBounded` and
  `RunnerKeepsItsBudget` prove it, `RetryBoundIsReached` reaches it for every budget and every such number, and
  `RetriesAreUnbounded` gives runs of any length without that condition. The dispatcher has no counter of its own, so there
  an unreadable count can cost one more run as well. A budget of zero still runs once.
* An accepted input is never lost, but it can be given up: the relay stops attempting an outbox row whose budget is spent on
  errors of its own. If nothing of the turn has reached the stream by then, it stays queued for ever and blocks everything
  accepted after it in its version (`DurableEnvelopes.GivenUpStop`), although nothing was interrupted
  (`DurableProgress.AnyInputCanBeGivenUp`). A live version can be worked off if and only if no turn of it is interrupted and
  each open one has a row still attempted or an unacknowledged entry (`DurableProgress.DrainsExactly`).
* The input quota compares `created_at`, the start of the accepting transaction, with the time of the check, which may be
  later by the wait for the row lock. For every configuration that accepts anything, all windows of a given length hold the
  quota if and only if that length is at most one minute less the longest such wait: `InputQuota.QuotaHoldsUpTo`. For any
  longer window and any size of input, `InputQuota.BoundIsTight` gives a history with too many messages or too many bytes.
* The limiter's bound of capacity plus refill fails for a capacity of zero, which still grants one at a time:
  `RateLimiter.WindowBound` counts the capacity as at least one, and `RateLimiter.BoundHoldsFrom` shows that without this
  the bound holds if and only if the capacity is at least one. A cool-off
  noted while an `acquire` sleeps does not hold that call back; it holds back those that take the lock later.
* A comment in the splitter says that a bare fence closes a block and anything else opens one; the code lets any fence line
  close an open block, and so does the model. The claim that formatting survives depends on the length of lines: all
  balanced texts with lines of at most n characters give balanced chunks if and only if n is at most 1974
  (`MessageFormatting.BalanceIsKeptUpTo`); `MessageFormatting.OneMoreCharacterCanUnbalance` gives a text with a line of 1975.
* The admission of a turn does not look at the row count of its upsert, so by itself it would run a turn that is not
  queued. The invariant shows that this never happens, whatever is interleaved between the reads and the admission.
* `_claim_act_finalize` refuses an empty key, but its caller appends a suffix first, so the refusal never happens and it is
  not in the model. An insert that meets a committed row which the janitor deletes before the select raises; that path is.

## Model

| member | source | states |
|---|---|---|
| `Lifecycle.UpdateEvolves` | src/discode/bot/session_service.py:329-341 | every guarded update of every process keeps versions monotone, failed and orphaned absorbing, and an era that is over stays over |
| `Lifecycle.UpdateKeepsToken` | src/discode/runner/saga_input.py:532-539 | while an era stays live only the completion of a turn changes its resume token |
| `Lifecycle.StopIsCompleted` | src/discode/bot/session_service.py:329-341 | a stop of a session in any of the four stoppable statuses is completed by the stop job of the version it made and by no other; the watchdog that comes first makes that job void |
| `Lifecycle.ArchiveIsUndone` | src/discode/bot/session_service.py:411-423 | archive, by its user or by the idleness sweeps, then resume and the guarded commit give a running session two versions on with the same token and host |
| `Lifecycle.RestartForgets` | src/discode/bot/session_service.py:584-599 | a restart ends in a running session one version on with the newly minted token only; a stopped session is not revived by input |
| `Lifecycle.IdleIsUndone` | src/discode/janitor/timeouts.py:102-225 | an idle session is as before after the next input; the stop sweep stops it with a job or at once, with the same result |
| `DurableInvariant.InvInitially` | src/discode/runner/saga_create.py:121-138 | a session as the create saga leaves it satisfies the invariant |
| `DurableInvariant.WriteRowKeepsInv` | src/discode/janitor/timeouts.py:26-253 | every lifecycle write other than saving a token keeps the invariant, whatever tasks are under way |
| `DurableSteps.EnqueueKeepsInv` | src/discode/bot/sagas/input.py:56-120 | accepting an input keeps the invariant: turn and envelope appear together |
| `DurableSteps.PublishKeepsInv` | src/discode/queues/relay.py:100-124 | publishing an envelope, with or without the commit that records it, loses nothing |
| `DurableSteps.RefuseKeepsInv` | src/discode/queues/relay.py:113-143 | a refused publication, also the last one attempted, keeps the invariant |
| `DurableSteps.SweepOutboxKeepsInv` | src/discode/janitor/retention.py:64-86 | deleting published outbox rows loses nothing |
| `DurableSteps.SweepResultKeepsInv` | src/discode/janitor/retention.py:89-111 | erasing results of delivered turns keeps the invariant, including what handlers have read |
| `DurableSteps.ReadEarliestKeepsInv` | src/discode/runner/saga_input.py:429-447 | the FIFO check and the branch on a status read earlier lead only to justified program points |
| `DurableSteps.AdmitKeepsInv` | src/discode/runner/saga_input.py:499-523 | an admission, however late after the reads, starts a turn that is queued, earliest and not executed before, with the current token |
| `DurableSteps.CompleteKeepsInv` | src/discode/runner/saga_input.py:523-539 | storing the result and folding the token keeps the token chain, also when the era has ended meanwhile |
| `DurableSteps.StepKeepsInv` | src/discode/runner/saga_input.py:367-578 | every action of every task, writer, sweep, relay and fault keeps the invariant |
| `DurableRuns.RunKeepsInv` | src/discode/runner/saga_input.py:373-386 | the invariant holds in every state of every run |
| `DurableRuns.EraContiguity` | src/discode/bot/session_service.py:584-599 | over every run the version never decreases, failed and orphaned are absorbing, and a session live at a version at two times was live at it at every time between |
| `DurableRuns.NotOverCanBeLive` | src/discode/runner/resume_runner.py:108-121 | an era at the current version that is not over can still become live, so the notion is exact |
| `DurableRuns.StaleJobsDoNothing` | src/discode/runner/main.py:136-177 | a stop, resume, restart or recovery job of one version never changes the row of another |
| `DurableRuns.RunExtends` | src/discode/runner/saga_input.py:499-539 | executions, their results, era starts and posts are never rewritten later in a run |
| `DurableRuns.ChainIsFold` | src/discode/runner/saga_input.py:532-539 | the recursive token chain is the COALESCE fold of the tokens returned in order |
| `DurableRuns.LastReturnedToken` | src/discode/runner/saga_input.py:532-539 | an execution runs with the last token that any earlier execution of its version returned, and with the era's starting token if none did |
| `DurableRuns.TokenChain` | src/discode/runner/saga_input.py:399-539 | every execution ran with its era's starting token folded with the tokens returned by all earlier executions of that version, each finished and of smaller sequence |
| `DurableRuns.ResumeCarriesToken` | src/discode/runner/resume_runner.py:31-119 | a resume starts its era with the row's token at that moment although it was read earlier, minting one only when there was none |
| `DurableRuns.ArchiveRoundTrip` | src/discode/bot/session_service.py:392-548 | in any run, archive, resume saga and a successful resume job give Archived, Resuming and Running at versions +1, +2, +2 with the token kept, or minted if there was none |
| `DurableRuns.StopRoundTrip` | src/discode/bot/session_service.py:301-372 | in any run a stop gives Stopping at the next version and its job Stopped, token and host kept |
| `DurableRuns.AtMostOnce` | src/discode/runner/saga_input.py:379-473 | no key is executed twice in a run, and at most one task of a session is executing |
| `DurableRuns.ExecutesWhatWasSent` | src/discode/runner/saga_input.py:499-523 | each execution runs the text, key and version that were accepted, at the current version and token |
| `DurableRuns.PoisonStop` | src/discode/runner/saga_input.py:444-473 | once a turn is interrupted it stays so and no turn of its version is executed ever after |
| `DurableRuns.Fifo` | src/discode/runner/saga_input.py:429-439 | within a version turns execute in strictly increasing sequence, each only after all earlier ones are retired |
| `DurableRuns.NothingLost` | src/discode/bot/sagas/input.py:95-120 | a turn that needs work in an era that is or may become live has its own envelope unpublished in the outbox or unacknowledged in the stream |
| `DurableRuns.AckedOnlyWhenSettled` | src/discode/runner/main.py:123-134 | an input job is acknowledged only when its turn is terminal, uncertain, or of an era that can never be live again, and that stays so in every later state |
| `DurableRuns.ReplyConsistency` | src/discode/runner/saga_input.py:523-545 | every reply posted under a key, at any attempt, is exactly the text of that turn's one execution |
| `DurableRuns.CompletedResultKept` | src/discode/janitor/retention.py:98-108 | the stored result of a completed, undelivered turn is never erased or changed |
| `DurableRuns.RetentionErases` | src/discode/janitor/retention.py:64-111 | the retention sweeps erase the result of a delivered or undeliverable turn, or delete a published row, and change nothing else |
| `DurableRuns.BusyWriteEnd` | src/discode/janitor/timeouts.py:109-202 | a write that ends a live era with open turns is a user's stop, archive or restart, or leaves it dead |
| `DurableRuns.JanitorNeverCutsOffWork` | src/discode/janitor/timeouts.py:109-202 | an era that ends does so at one step, and with a turn still open that step is a user's or a failure, never a timeout sweep |
| `DurableVerdicts.DecisionsFollowTheLedger` | src/discode/runner/saga_input.py:429-499 | in every run the decision follows the ledger as it is at that moment: blocked gives up, queued is admitted or, if denied, refused, executing and uncertain are reported, completed is posted with its result, terminal is returned |
| `DurableVerdicts.BlockedMeans` | src/discode/runner/saga_input.py:429-443 | an open turn waits exactly when an earlier turn of its version is unfinished, a retired one when any is |
| `DurableVerdicts.JudgedByVerdict` | src/discode/runner/saga_input.py:475-499 | whoever is to admit or to refuse a turn has obtained that verdict itself, for a queued, unblocked turn, and has done nothing since |
| `DurableVerdicts.AdmittedWasAllowed` | src/discode/runner/saga_input.py:475-504 | every admission in every run rests on a favourable verdict of the workspace check, acted on next |
| `DurableVerdicts.DeniedIsNeverAdmitted` | src/discode/runner/saga_input.py:475-504 | no handler admits a turn after its workspace was denied to it |
| `DurableVerdicts.RefusedIsNeverRun` | src/discode/runner/saga_input.py:482-494 | a refused turn is aborted in every later state and is never executed |
| `DurableVerdicts.AbortedWasDenied` | src/discode/runner/saga_input.py:475-485 | only such a turn is ever aborted: its handler was denied while it was queued, and retired it next |
| `DurableVerdicts.RefusalIsAnnounced` | src/discode/runner/saga_input.py:486-494 | the notice of a refusal is posted only for a turn that is aborted and was never executed |
| `DurableEnvelopes.StepFrame` | src/discode/runner/saga_input.py:367-578 | what every action leaves alone: messages of handlers, entries, outbox rows and turns other than its own |
| `DurableEnvelopes.RunKeepsEntries` | src/discode/runner/main.py:306-307 | in every run only settled turns are acknowledged, and a turn that someone has taken up and that is not settled has an unacknowledged entry |
| `DurableEnvelopes.UndeliverableIsGivenUp` | src/discode/queues/relay.py:80-91 | an open, uninterrupted turn of a live version that has neither an attempted row nor an unacknowledged entry is queued, with no entry and no handler |
| `DurableEnvelopes.GivenUpStop` | src/discode/queues/relay.py:113-143 | a turn whose rows the relay has given up before any entry existed stays queued in every later state, and nothing accepted after it in its version is ever executed |
| `DurableProgress.RunKeepsLock` | src/discode/runner/saga_input.py:375-386 | in every state of every run the advisory lock is free or held by a task that is still working under it |
| `DurableProgress.EveryTurnCanBeDelivered` | src/discode/runner/saga_input.py:367-560 | from every state of every run in which the session is live, no turn of its version interrupted and each open one deliverable, some continuation delivers every open turn, the queued ones with any replies chosen for them, and leaves the retired ones as they are |
| `DurableProgress.DrainsExactly` | src/discode/queues/relay.py:80-91 | a live version can be worked off if and only if none of its turns is interrupted and each open one has a row that the relay still attempts or an unacknowledged entry |
| `DurableProgress.AnyInputCanBeGivenUp` | src/discode/queues/relay.py:113-143 | for any input there is a run to a live session with no interrupted turn in which that input is given up and the version cannot be worked off |
| `DurableProgress.AnyInputCanBeDelivered` | src/discode/bot/sagas/input.py:95-120 | for any key, text, token and reply there is a run that accepts that input and a continuation that executes it and delivers that reply |
| `World.HistoryIsRun` | src/discode/runner/saga_input.py:379-386 | the history of each session in a run of the whole system is a run, so the theorems hold for all sessions |
| `World.WorldRunKeepsInv` | src/discode/bot/sagas/input.py:38-40 | in every run of the whole system all sessions keep the invariant and no two share a key |
| `World.KeysExecuteOnce` | src/discode/runner/saga_input.py:499-523 | no idempotency key is executed twice anywhere in the system |
| `SessionStore.Store.RunStopSaga` | src/discode/bot/session_service.py:301-372 | returns true exactly from creating, resuming, running or idle; then the row is stopping at the next version with token and host kept, otherwise nothing changes |
| `SessionStore.Store.RunArchiveSaga` | src/discode/bot/session_service.py:392-466 | returns true exactly from running, idle or stopped; then the row is archived at the next version with token and host kept, otherwise nothing changes |
| `SessionStore.Store.RunResumeSaga` | src/discode/bot/session_service.py:478-548 | returns true exactly from archived; then the row is resuming at the next version with token and host kept, otherwise nothing changes |
| `SessionStore.Store.RunRestartSaga` | src/discode/bot/session_service.py:563-628 | returns true exactly from running, idle or stopped; then the row is resuming at the next version without a token, otherwise nothing changes |
| `SessionStore.Store.RunInputSaga` | src/discode/bot/sagas/input.py:56-120 | accepted exactly when live and within the quota; then the queued turn, its unpublished envelope and its quota event exist together, otherwise nothing changes |
| `SessionStore.Store.HasOpenTurn` | src/discode/janitor/timeouts.py:114-117 | the scan finds an open turn of the version exactly when there is one |
| `SessionStore.Store.SweepIdleTimeout` | src/discode/janitor/timeouts.py:102-122 | sweeps exactly a running session without open turns of its version, which becomes idle; otherwise nothing changes |
| `SessionStore.Store.SweepArchiveTimeout` | src/discode/janitor/timeouts.py:125-147 | sweeps exactly an idle session without open turns, which becomes archived at the next version; otherwise nothing changes |
| `SessionStore.Store.SweepStopTimeout` | src/discode/janitor/timeouts.py:182-225 | sweeps exactly a running, idle or archived session without open turns, which becomes stopping, or stopped without a host, at the next version; otherwise nothing changes |
| `SessionStore.Store.TryAdvisoryLock` | src/discode/runner/saga_input.py:379-385 | the lock is taken exactly when free, otherwise the job is deferred |
| `SessionStore.Store.SelectSession` | src/discode/runner/saga_input.py:399-419 | the read of the session row goes on only if live at the envelope's host and version |
| `SessionStore.Store.SelectTurn` | src/discode/runner/saga_input.py:420-428 | the ledger row is read as it is |
| `SessionStore.Store.EarliestUnfinished` | src/discode/runner/saga_input.py:429-437 | the scan returns an unfinished turn of the version with the least sequence, or none when there is none |
| `SessionStore.Store.SelectEarliest` | src/discode/runner/saga_input.py:429-494 | defers exactly a turn with an unfinished earlier one; otherwise a queued turn is admitted with the current token, or refused if its workspace is denied, an executing or uncertain one reported, a completed one posted, a terminal one skipped |
| `SessionStore.Store.UpdateUncertain` | src/discode/runner/saga_input.py:448-457 | an interrupted turn is marked uncertain |
| `SessionStore.Store.PostUncertainNotice` | src/discode/runner/saga_input.py:459-473 | an accepted notice, or a channel that is gone, gives aborted; a transient failure gives deferred |
| `SessionStore.Store.MarkTurnAborted` | src/discode/runner/saga_input.py:482-485 | a refused turn is retired only while queued |
| `SessionStore.Store.PostDeniedNotice` | src/discode/runner/saga_input.py:486-494 | the refusal is reported and the job aborted whatever becomes of the notice |
| `SessionStore.Store.AdmitTransaction` | src/discode/runner/saga_input.py:502-522 | admitted exactly when the session is still live at the version read |
| `SessionStore.Store.CompleteTransaction` | src/discode/runner/saga_input.py:524-539 | the result is stored and the token folded only in a live era of that version |
| `SessionStore.Store.PostTheReply` | src/discode/runner/saga_input.py:542-558 | accepted, permanent and transient outcomes lead to delivered, delivery_failed and deferred |
| `SessionStore.Store.MarkTheTurn` | src/discode/runner/saga_input.py:563-578 | the turn gets the decided status and the job its outcome |
| `SessionStore.Store.DeliverReply` | src/discode/runner/saga_input.py:540-560 | a job that reports delivery has its turn delivered; any outcome but deferred leaves the turn settled |
| `SessionStore.Store.ReportUncertain` | src/discode/runner/saga_input.py:448-473 | the interrupted path takes only protocol steps and ends settled or deferred |
| `SessionStore.Store.RefuseTurn` | src/discode/runner/saga_input.py:482-494 | the refusal path takes only protocol steps and ends aborted and settled |
| `SessionStore.Store.ExecuteTurn` | src/discode/runner/saga_input.py:499-560 | aborted without executing when the era is no longer live at admission, otherwise one execution, completion and delivery, each under any interference; deferred only after a transient post |
| `SessionStore.Store.ReadAndChoose` | src/discode/runner/saga_input.py:398-448 | the three separate reads, with anything happening between them: a decision that fits the ledger read, or an outcome with the reason for it: no session, not live, or an unfinished earlier turn |
| `SessionStore.Store.RunLocked` | src/discode/runner/saga_input.py:389-560 | under any interference the locked part takes only protocol steps and ends with the reason for its outcome: what it read, whether it was denied, and how the post ended |
| `SessionStore.Store.RunInputJob` | src/discode/runner/saga_input.py:367-386 | under any interference a job takes only protocol steps; every outcome has its stated reason, deferred only for a lock held, an unfinished earlier turn or a transient post; a queued turn whose workspace is denied is aborted without an execution; a job not deferred may be acknowledged |
| `SessionStore.Store.SelectResuming` | src/discode/runner/resume_runner.py:31-48 | the job goes on only for a resuming session of its own version |
| `SessionStore.Store.FailResuming` | src/discode/runner/resume_runner.py:68-77 | the guarded failure writes nothing once the version or status has moved on |
| `SessionStore.Store.CommitResuming` | src/discode/runner/resume_runner.py:101-121 | the guarded write succeeds exactly at the job's version in resuming, and writes the token the row still holds or a minted one |
| `SessionStore.Store.RunResumeJob` | src/discode/runner/resume_runner.py:13-163 | success leaves the era live with its starting token recorded, the one read or a minted one; a job does not resume only if it was denied, raised, or found the session no longer resuming at its version |
| `SessionStore.InterferenceKeeps` | src/discode/runner/saga_input.py:375-386 | whatever others do, a handler keeps its place and its lock and the invariant holds |
| `Fences.FindOpenFence` | src/discode/dispatcher/message_builder.py:12-18 | the loop over fence lines computes the fence left open at the end of the text |
| `Fences.FenceByPosition` | src/discode/dispatcher/message_builder.py:8-14 | a line is a fence exactly when its first character that is neither space nor tab begins three backticks; it opens those and the first twenty of the run of tag characters after them |
| `Fences.IndentationIsIgnored` | src/discode/dispatcher/message_builder.py:8 | any indentation of spaces and tabs leaves open what the line without it does |
| `Fences.OpenFenceByLines` | src/discode/dispatcher/message_builder.py:12-18 | a text of any lines leaves a fence open exactly when it has an odd number of fence lines, and it is the last of them |
| `Fences.ScanJoined` | src/discode/dispatcher/message_builder.py:8-18 | scanning joined texts is scanning one after the other |
| `Fences.FenceOpensItself` | src/discode/dispatcher/message_builder.py:14-18 | a reopened fence line opens exactly the fence that was open |
| `Fences.ClosingFenceCloses` | src/discode/dispatcher/message_builder.py:9-18 | the appended closing line leaves no fence open |
| `MessageBuilder.SplitPoint` | src/discode/dispatcher/message_builder.py:21-24 | the split is past the floor, within the limit, and at a newline unless it is at the limit |
| `MessageBuilder.CutIsPastThePrefix` | src/discode/dispatcher/message_builder.py:35-48 | a split never falls into the inserted prefix and always takes an original character |
| `MessageBuilder.SplitMakesProgress` | src/discode/dispatcher/message_builder.py:33-48 | the pair of content length and nothing reopened strictly decreases; the length alone may stay equal once |
| `MessageBuilder.ChooseSplit` | src/discode/dispatcher/message_builder.py:36-41 | the two attempts compute the cut and the fence open there |
| `MessageBuilder.BuildMessage` | src/discode/dispatcher/message_builder.py:27-51 | the loop terminates with the rendered pieces; each chunk has 1 to 2000 characters and every one but the last leaves no fence open |
| `MessageBuilder.ContentPreserved` | src/discode/dispatcher/message_builder.py:33-51 | without the inserted prefixes and suffixes the chunks concatenate to exactly the text |
| `MessageBuilder.PieceShapes` | src/discode/dispatcher/message_builder.py:33-51 | insertions are whole fences, never split; every piece but the last carries original text |
| `MessageFormatting.FormattingSurvives` | src/discode/dispatcher/message_builder.py:27-32 | for lines of at most 1974 characters each chunk reopens exactly the fence open in the text where it starts, and the last leaves open what the text leaves open |
| `MessageFormatting.BalancedTextGivesBalancedChunks` | src/discode/dispatcher/message_builder.py:35-50 | a balanced text with such lines gives only balanced chunks |
| `MessageFormatting.OneMoreCharacterCanUnbalance` | src/discode/dispatcher/message_builder.py:21-24 | a concrete balanced text with a line of 1975 characters whose last chunk is left open |
| `MessageFormatting.BalanceIsKeptUpTo` | src/discode/dispatcher/message_builder.py:27-51 | all balanced texts with lines of at most n characters give balanced chunks if and only if n is at most 1974 |
| `ReplyDelivery.StepKeepsInv` | src/discode/runner/control_api.py:239-295 | every step of every handler, lease expiry and crash keeps the delivery invariant |
| `ReplyDelivery.SentChunksFormAPrefix` | src/discode/runner/control_api.py:327-364 | in every interleaving the chunks ever sent are a prefix of the reply |
| `ReplyDelivery.RecordedIdIsWriteOnce` | src/discode/runner/control_api.py:258-286 | a recorded message id never changes and belongs to a message that was sent |
| `ReplyDelivery.SendsAreBounded` | src/discode/runner/control_api.py:260-295 | a chunk is sent at most once more than there were lost checkpoints and takeovers of a running sender |
| `ReplyDelivery.EachChunkSentAtMostOnce` | src/discode/runner/control_api.py:239-295 | if no send outlives its lease and none is lost before its checkpoint, each chunk is sent at most once |
| `ReplyDelivery.FailedChunkIsFree` | src/discode/runner/control_api.py:286-295 | after a failed send or checkpoint of its owner the chunk can be claimed at once by the next handler, for ten minutes from its start |
| `ReplyDelivery.InterferenceKeeps` | src/discode/runner/control_api.py:239-295 | whatever time and other handlers do, a handler keeps its place and the invariant holds |
| `ReplyDelivery.Endpoint.SendCheckpointed` | src/discode/runner/control_api.py:231-295 | takes only protocol steps under interference; a recorded id is returned without sending, otherwise a free chunk ends as its send and its record do, and one in use by another handler is not sent |
| `ReplyDelivery.Endpoint.SendAndRecord` | src/discode/runner/control_api.py:274-295 | under the lease: send, record, or give the lease back |
| `ReplyDelivery.Endpoint.TryClaim` | src/discode/runner/control_api.py:260-273 | claims exactly a pending row whose lease is free or had expired when the transaction started, for ten minutes from that start |
| `ReplyDelivery.Endpoint.RecordOutcome` | src/discode/runner/control_api.py:276-295 | the row changes only while still owned: it then holds the id, if the record works, and the lease is given back in any case |
| `ReplyDelivery.Endpoint.PostReply` | src/discode/runner/control_api.py:327-364 | success returns one id per chunk, each of a message sent for that chunk, and the recorded one where there was one; failure happens at a chunk not recorded before, whose send or record failed or which another handler held, with all earlier ones sent |
| `TerminalNotice.StepKeepsInv` | src/discode/dispatcher/handlers/terminal_notice.py:78-124 | every step keeps: effects are commits, lost transactions or the holder's; commits are the row or expired rows |
| `TerminalNotice.EffectsAreBounded` | src/discode/dispatcher/handlers/terminal_notice.py:93-124 | effects number at most one plus expired rows plus transactions that died between effect and commit |
| `TerminalNotice.CommittedEffectIsFinal` | src/discode/dispatcher/handlers/terminal_notice.py:105-124 | once committed, a stage is not run again before the row's expiry |
| `TerminalNotice.ArchivedOnlyAfterPosted` | src/discode/dispatcher/handlers/terminal_notice.py:42-73 | the thread is archived, and marked archived, only after the post is committed |
| `TerminalNotice.TrueMeansDone` | src/discode/dispatcher/handlers/terminal_notice.py:53-75 | returning true means every requested stage is committed; the archive mark is set exactly by the archive's commit |
| `TerminalNotice.DoneIsNotRepeated` | src/discode/dispatcher/handlers/terminal_notice.py:113-114 | a stage found committed and unexpired is unchanged whatever happens to the other stage |
| `TerminalNotice.InterferenceKeeps` | src/discode/dispatcher/handlers/terminal_notice.py:95-124 | whatever time, the janitor and other deliveries do, a delivery keeps its place and the invariant holds |
| `TerminalNotice.Notice.ClaimActFinalize` | src/discode/dispatcher/handlers/terminal_notice.py:78-124 | takes only protocol steps under interference; success means the stage is committed; after a conflict it is success exactly if the row is still there, otherwise exactly if action and commit both work |
| `TerminalNotice.Notice.HandleTerminalNotice` | src/discode/dispatcher/handlers/terminal_notice.py:42-75 | true means both requested stages are committed, false that a named stage failed for a named reason; a stage committed before is not repeated when only the other failed |
| `StreamTrim.RunEvolves` | src/discode/queues/retention.py:18-33 | any interleaved deliveries, acks, claims and appends only move groups forward |
| `StreamTrim.PassedForever` | src/discode/queues/retention.py:23-30 | a group that has read and acknowledged everything below a floor stays past it |
| `StreamTrim.RedisStream.FirstPending` | src/discode/queues/retention.py:27-30 | the least pending id of a group |
| `StreamTrim.RedisStream.ReadFloor` | src/discode/queues/retention.py:22-30 | despite interference between the reads every group is past the floor at the end, and the floor is above every entry older than the cutoff that all groups were past when the procedure was called |
| `StreamTrim.RedisStream.TrimAcknowledged` | src/discode/queues/retention.py:18-33 | with a group, every entry older than the retention time that all groups had read and acknowledged at the call is removed; no entry unread or pending in any group at the moment of the trim is, and nothing younger than the retention time |
| `Relay.BackoffIsExponential` | src/discode/queues/relay.py:31-35 | the capped form used for rows equals the plain exponential one, is monotone, and reaches its maximum exactly at the tenth failure |
| `Relay.RowAccounted` | src/discode/queues/relay.py:100-124 | each row's stream entries are its recorded publication plus accidents, before and after a batch |
| `Relay.RelayLoop.SelectBatch` | src/discode/queues/relay.py:80-93 | the batch is exactly the first rows by id that are unpublished, of this producer, due and below fifty attempts, at most the batch size |
| `Relay.RowsAfter` | src/discode/queues/relay.py:98-143 | after a batch each row worked is published, or refused with one more attempt and its backoff, as its reply says; every other row is as before |
| `Relay.AddedInOrder` | src/discode/queues/relay.py:80-124 | what one batch appends to a stream is in the order of the rows' ids |
| `Relay.RefusalsAreBounded` | src/discode/queues/relay.py:126-143 | a row refused again and again is refused at most as often as its budget allows, each wait is between 200 ms and a minute, the attempts are apart by the sum of the backoffs, and it is marked and never due again exactly when the budget is spent |
| `Relay.RelayLoop.RecordFailure` | src/discode/queues/relay.py:126-143 | a refused row is not due now, waits 100 ms times two to the number of attempts, at most a minute, and is due again exactly if it has attempts left |
| `Relay.RelayLoop.RelayRows` | src/discode/queues/relay.py:98-124 | the loop stops at the first unreachable or failing row, appends in id order, and marks exactly the added rows |
| `Relay.RelayLoop.DrainBatch` | src/discode/queues/relay.py:74-124 | each row of the committed batch is published, refused or untouched as its reply says; streams get exactly the added rows in order; without a commit the table is unchanged, and an unreachable server spends no attempt |
| `JobConsumer.StepKeepsInv` | src/discode/runner/main.py:216-274 | every step of every consumer process keeps conservation and the budget |
| `JobConsumer.EveryEntryIsAccountedFor` | src/discode/queues/consumers/runner_cg.py:47-63 | every entry is unread, pending, acknowledged after a handler returned true, or retained as a dead letter whose attempts are at least the budget and at most what was counted |
| `JobConsumer.SuccessHasACause` | src/discode/runner/main.py:254-265 | an entry counted as handled was handled by a call that returned true |
| `JobConsumer.RetriesAreBounded` | src/discode/runner/main.py:224-274 | a message never handled is run by a process at most its budget plus its dead letters that raised, and for the dispatcher plus unreadable counts |
| `JobConsumer.RunnerKeepsItsBudget` | src/discode/runner/main.py:270-274 | with no dead letter raising, the runner's budget holds whatever the server's count reads |
| `JobConsumer.RetriesAreUnbounded` | src/discode/dispatcher/main.py:150-174 | for any budget and any number there is a run with that many attempts when dead letters raise, or, for the dispatcher, when the count reads zero |
| `JobConsumer.RetryBoundIsReached` | src/discode/runner/main.py:270-274 | for every budget and every number of raised dead letters there is a run with exactly that many and budget plus that many attempts |
| `JobConsumer.InterferenceKeeps` | src/discode/runner/main.py:216-274 | whatever producers and other processes do, a process keeps its place and the invariant holds |
| `JobConsumer.Process.CheckBudget` | src/discode/runner/main.py:270-272 | the attempts are at least the local and the readable server count |
| `JobConsumer.Process.BuryMessage` | src/discode/queues/consumers/runner_cg.py:55-63 | a dead letter that returns is retained and acknowledged together |
| `JobConsumer.Process.ProcessMessage` | src/discode/runner/main.py:234-274 | as the handler, the counts and the bookkeeping answer: acknowledged after success, pending below the budget, buried at it, or pending with the bookkeeping raised |
| `JobConsumer.Process.ConsumeBatch` | src/discode/runner/main.py:234-243 | the loop processes each message of a batch once, in order, by protocol steps |
| `InputScheduler.StepKeepsInv` | src/discode/runner/main.py:290-345 | every step of the loop and of every task keeps the scheduling invariant |
| `InputScheduler.OneAtATime` | src/discode/runner/main.py:297-307 | a running job means every earlier admitted job of its session is done |
| `InputScheduler.StartedInAdmissionOrder` | src/discode/runner/main.py:342-345 | the jobs of one session start in admission order |
| `InputScheduler.OneTaskPerMessage` | src/discode/runner/main.py:332-342 | a message has at most one task in flight |
| `InputScheduler.AdmissionIsBounded` | src/discode/runner/main.py:294-336 | at most eight times the concurrency are admitted and unfinished, at most the concurrency running |
| `InputScheduler.NothingStartsAfterStop` | src/discode/runner/main.py:304-305 | after the stop is set no handler is started |
| `InputScheduler.SlotStartsHandler` | src/discode/runner/main.py:300-307 | before it, a task that gets its slot starts its handler |
| `InputScheduler.SomeTaskCanMove` | src/discode/runner/main.py:300-307 | while a task is unfinished some task can move: waiting on a predecessor holds no slot |
| `InputScheduler.EverythingDrains` | src/discode/runner/main.py:300-311 | from every reachable state the admitted tasks can all finish, in at most as many steps as there is work left |
| `InputScheduler.TasksRanKeeps` | src/discode/runner/main.py:297-311 | however the tasks are scheduled during a wait, the invariant holds and the loop's own variables are untouched |
| `InputScheduler.Scheduler.AdmitFirst` | src/discode/runner/main.py:342-345 | the admission registers the task as tail, active and in flight |
| `InputScheduler.Scheduler.AwaitRoom` | src/discode/runner/main.py:335-336 | the wait ends with room, by task steps only |
| `InputScheduler.Scheduler.AdmitBatch` | src/discode/runner/main.py:332-345 | afterwards every message with a session has a new task, or one that was unfinished when the batch was begun, within the bound; one with an invalid payload is a dead letter unless its id is in flight, and no other is |
| `InputScheduler.Scheduler.Pass` | src/discode/runner/main.py:314-345 | one pass of the loop takes only protocol steps; every valid message, redelivered or not, has a new task or one that was unfinished at its start; exactly invalid ones become dead letters |
| `RateLimiter.Telescope` | src/discode/dispatcher/rate_limiter.py:41-50 | over any stretch of grants the bucket pays one token each and gains at most the refill of the time |
| `RateLimiter.WindowBound` | src/discode/dispatcher/rate_limiter.py:34-50 | any window of length t holds at most capacity plus refill times t grants |
| `RateLimiter.ZeroCapacityStillGrants` | src/discode/dispatcher/rate_limiter.py:44-50 | with capacity zero a window of length zero can hold a grant |
| `RateLimiter.BoundHoldsFrom` | src/discode/dispatcher/rate_limiter.py:34-50 | all windows of all histories hold at most capacity plus refill times length grants if and only if the capacity is at least one |
| `RateLimiter.DueGrantsDoNotSleep` | src/discode/dispatcher/rate_limiter.py:41-50 | of acquires in a row as many as there are whole tokens due are granted at the clock's time without sleeping; a channel never used has its capacity due |
| `RateLimiter.IdleChannelsRefill` | src/discode/dispatcher/rate_limiter.py:41-43 | after t idle seconds at least the lesser of the capacity and the tokens left plus t times the refill are granted at once |
| `RateLimiter.HappeningKeeps` | src/discode/dispatcher/rate_limiter.py:24-35 | whatever other coroutines do while a channel's lock is held, its bucket stays, histories stay lawful and only grow |
| `RateLimiter.ChannelRateLimiter.NoteRetryAfter` | src/discode/dispatcher/rate_limiter.py:31-32 | the channel's cool-off, and nothing else, is set, to no earlier than now |
| `RateLimiter.ChannelRateLimiter.AwaitCooloff` | src/discode/dispatcher/rate_limiter.py:36-40 | the cool-off found when the lock was taken has elapsed before a grant, whatever is noted meanwhile |
| `RateLimiter.ChannelRateLimiter.Refilled` | src/discode/dispatcher/rate_limiter.py:41-43 | the whole capacity on first use, otherwise the old level plus the refill of the time since, at most the capacity |
| `RateLimiter.ChannelRateLimiter.Acquire` | src/discode/dispatcher/rate_limiter.py:34-50 | whatever happens during its sleeps, one grant is added to the channel's history, all histories stay lawful and the cool-off found at the start has elapsed; with a whole token due the grant is at the time then read, without a further sleep |
| `RateLimiter.ChannelRateLimiter.EveryWindowIsBounded` | src/discode/dispatcher/rate_limiter.py:7-14 | the window bound holds for every channel of every limiter |
| `InputQuota.WindowBound` | src/discode/bot/sagas/input.py:56-94 | every window of one minute less the longest lock wait holds at most the configured messages and bytes |
| `InputQuota.BoundIsTight` | src/discode/bot/sagas/input.py:63-81 | for every longer window, every configuration and every size of input it accepts, some history of inputs of that size exceeds the messages or the bytes |
| `InputQuota.QuotaHoldsUpTo` | src/discode/bot/sagas/input.py:56-94 | for every configuration that accepts anything, windows of a length hold the quota if and only if the length is at most a minute less the longest lock wait |
| `InputQuota.Quota.TryAccept` | src/discode/bot/sagas/input.py:63-94 | accepts exactly what the window admits, and records it in the same transaction |

## Left out

- Discord commands, help, autocomplete, typing indicators and command synchronisation: user interface.
- Subprocess, pty, HTTP and Discord REST code: only its outcomes appear (success, permanent failure, transient failure, crash).
- Redaction, ANSI stripping, JSON extraction, encryption and path canonicalisation; the workspace check is a nondeterministic allow or deny, and a reply is the text after these steps.
- Authorisation, tool registry, settings, path aliases, migrations: they decide whether a request is made at all and keep no state of the protocol. The same holds for the guild comparison and for the rejections of the input saga before its row lock (empty or oversized input, emergency stop).
- The in-memory session store: every turn rebuilds its entry from the row, so no property rests on it.
- The state table in src/discode/specs/state_machine.py: the writers do not consult it and allow more moves, so the transitions are taken from the writers.
- Input payloads without a version or without a ledger row: the input saga always supplies both.
- Clock comparisons of the janitor's sweeps: a sweep may fire at any time, which only adds runs. A sweep over many rows is one step per session. A sweep that waits for a row lock re-reads the row but not the turns; the comparison with `last_activity_at`, which the input saga refreshes, is what makes treating it as one step right.
- `run_create_job`, `recover_sessions`, the watchdog sweeps, the heartbeat sweep and the stop job are transitions of the state machine and take part in every theorem, but have no method of their own in `SessionStore`: each is a single guarded UPDATE, or a read followed by one, which is already the whole content of its transition.
- The streams that carry lifecycle jobs: a stop, resume or restart job may arrive at any time with any version, which covers loss, duplication and reordering. Notices written to the outbox by lifecycle writers are not part of the session model.
- The copy of the resume token in the turn ledger, the audit events, and the monitor that cancels an execution when its version changes (an execution may end at any time with any result).
- `ensure_execution_allowed` raising, and any other exception of a handler: the same as a crash of the task, after which the message stays pending.
- Loss of the advisory lock's connection while its process lives on, a collision of its hash between sessions, and clock skew: outside the protocol's assumptions.
- The output quota and the session check before each chunk: a failing send in the model. A send that posts and then raises is a send followed by a lost checkpoint.
- Retention of the chunks' idempotency rows: they never expire.
- Resume-by-name superseding, the thread-binding sweep, metrics and recovery scripts.
- Cancellation of admitted input tasks when the drain times out: it ends the process's tasks, and their messages stay pending.
- A dead letter of the input loop whose own Redis transaction raises, which ends that loop.
- Restarting a crashed relay (`supervise_relay`), and the order in which several relays' batches interleave: each batch is one call.
- `ReplyDelivery.Endpoint.SendCheckpointed`: leaves out the branch taken when no database is configured, in which every call just sends.
- Floating point: the limiter and the quota are stated over real numbers.
- Characters are abstract: the tag characters of a fence are a parameter, because the word class is the regular-expression engine's.
