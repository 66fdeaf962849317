# Verification of the price alert service

This project models the parts of the service whose correctness spans several functions, and proves what
they promise with Dafny 4.11. `dafny verify dfyconfig.toml` checks all of it.

Three systems are modelled, and the places where they meet.

**Execution rounds over the job store.** `Executors` holds the target executor and the legacy executor as
classes that loop over targets, symbols and notifiers and change a job table with a primary-key index;
`Rounds` says what a round does as functions of the rows and of an environment (configuration loads, faults,
fresh ids, market answers, notifier errors, clocks), which every method is proved against. `Rounds` also
defines the naive loop that the three phases replace. `Expectations` says what a message has to tell, who has to be
handed it and which error counts, in terms of that environment alone. On top: the refinement of the naive loop
(`RoundProofs`), sent rows over whole runs (`SentProofs`), failure isolation between two rounds (`IsolationProofs`),
what is claimed and fetched (`ClaimProofs`, `DeliveryProofs`), exactly the messages, rows and errors of a round
(`RoundMessages`, `RoundEffects`, `FailureProofs`) and of a legacy round (`LegacyEffects`), when a round drops a target
(`RejectionProofs`), and executions interleaved with cleanup (`Retention`, `Cleanups`), of which rounds are runs
(`Replay`).

**The configuration protocol.** `Configs` and `ConfigServices` hold the tables and the service one call at a
time. `ChatProtocol` is the step system: any number of actors configure, edit, save, cancel, enable, pause and
read, one database statement or store call per step, with the clock moving and operations stopping anywhere.
`ChatProofs` and `ChatRuns` prove its invariant, `ChatTheorems` what follows for every run, and `ChatPaths` what whole
operations amount to. `SessionStores` has the memory session store on the heap, with Go slices as arrays; `Guided` the
selection controls, `GuidedSessions` and `Openings` the sessions they edit; `Inbound` the webhook deliveries over the
event table.

**Period arithmetic.** `Periods` and `Scheduling` are modular arithmetic over all instants, offsets and windows.

Where they meet: `TornReads` and `TornRun` follow stored configurations into a round, and `Retention` combines
period arithmetic, job creation and cleanup.

Conventions: instants are integer nanoseconds and periods integer minutes; the zone offset is an arbitrary
constant; an error is `None`, `Err` or an `Option` of a reason. A `budget` or `fault` parameter says how far the
database carries an operation out. `hide` statements in proofs only take definitions away from the solver.

## Findings

- A round loads a configuration with three statements (internal/repository/postgres.go:253-274). If a save that
  switches the provider commits between the first two, the round drops the enabled target as unsupported
  (internal/scheduler/target_executor.go:137-144) although every version is supported: `TornRun.TornLoadIsRejected`
  builds the run, `TornReads.RejectedExactlyWhen` gives the exact condition.
- Enable and Pause read the same way, yet the version check makes every torn one fail
  (internal/chat/service.go:84-98, internal/repository/postgres.go:285-300).
- Cleanup cannot reopen a sent period exactly while a job creation trails the clock reading of its execution
  by at most the retention less one minute, plus a nanosecond because the cutoff is strict
  (internal/scheduler/notification_job_cleanup.go:72-86).
- Configuring a target for the first time works exactly when the default provider offers the first configured
  symbol at the first configured interval, and the actor is named; other combinations are not looked at
  (internal/service/configuration/service.go:108). `ConfigServices.FirstConfigureCanFail` has settings that fail.
- The error a round returns may differ from the naive loop's, because phase 1 errors come before all send
  errors; whether there is one does not (internal/scheduler/target_executor.go:101-227).
- A tick that divides the interval but not the zone offset misses every due minute, because periods are aligned
  to UTC (internal/scheduler/period.go:55-60) and the cron entry to local time (internal/scheduler/scheduler.go:77-103).
  `Scheduling.HalfHourZoneMissesTheHours` is one such zone.

- An inbound event whose claim is committed but answered with an error stays received: a later delivery finds it and
  is not processed either (internal/repository/postgres.go:338-360, internal/chat/telegram/webhook.go:90-100).
  `Inbound.DeliveriesHandled` has the run.

## Model

| member | source | states |
|---|---|---|
| Periods.ExactPeriodSet | internal/scheduler/period.go:42-75 | over all instants, the periods returned for an interval are exactly the UTC-aligned slots lying inside one local day's window, for every zone offset and window |
| Periods.PeriodsAreDisjoint | internal/scheduler/period.go:51-60 | two returned periods of one interval are the same or do not overlap |
| Periods.LongIntervalsAreNeverDue | internal/scheduler/period.go:62-72 | no instant is due when the interval is longer than the window, hence never for 1d, 3d and 1w |
| Periods.PeriodIsPartitioned | internal/scheduler/period.go:51-75 | when d1 divides d2, a returned d2 period is tiled by d2/d1 returned d1 periods and met by no other |
| Scheduling.CronFiresAtMultiples | internal/scheduler/scheduler.go:77-103 | the cron entry for a tick of length d fires exactly at the local minutes divisible by d (by a day for longer ticks) |
| Scheduling.TickCoverage | internal/scheduler/scheduler.go:49-62 | a due minute is a firing minute if and only if the tick divides the zone offset, when the tick divides the interval |
| Scheduling.HalfHourZoneMissesTheHours | internal/scheduler/scheduler.go:77-103 | at an offset of five and a half hours an hourly tick misses every due minute, such as the hour ending at 02:00 UTC |
| Scheduling.Tick | internal/scheduler/scheduler.go:64-71 | one tick executes the intervals at exactly the positions of the configured list that are due, each position once and in order |
| Scheduling.EveryPeriodIsTicked | internal/scheduler/scheduler.go:64-71 | every returnable period is executed by the ticks of exactly one minute, its last, and the entry fires then |
| Registry.NewProviderRegistry | internal/market/registry.go:26-83 | construction succeeds if and only if every enabled provider can be built and the default is enabled; then capabilities are each provider's symbols times the common intervals, and each table of canonical symbols knows exactly the normalized names of its provider's symbols |
| Registry.CanonicalKeepsConfigured | internal/market/registry.go:85-97 | a configured symbol in normalized form is its own canonical symbol, unless it also names another one |
| Registry.OffersExactly | internal/market/registry.go:103-142 | a registry built from market settings resolves exactly the enabled providers, and supports exactly their own symbols at the common intervals |
| Registry.SupportIsProductForm | internal/market/registry.go:131-142 | a symbol and an interval supported separately by a provider are supported together |
| Messages.StableSort | internal/notification/message.go:29-31 | the in-place sort leaves the array as the insertion-sorted sequence of what it held |
| Messages.RenderLines | internal/notification/message.go:33-54 | one line per result in order, or the error exactly when some result has no symbol |
| Messages.BuildMessage | internal/notification/message.go:18-67 | the message or error for the results as passed; it fails exactly on an invalid period, no results or an unnamed one, and the caller's array is left sorted only if it got that far |
| Messages.SortIsStable | internal/notification/message.go:29-31 | results naming one symbol keep their relative order |
| Messages.MessageIsComplete | internal/notification/message.go:33-66 | a built message is the period header and one line per result, for a symbol-ordered, stable permutation of the results |
| Expectations.BuiltIsTelling | internal/notification/message.go:18-67 | results that are those of a list of jobs give the message with one line per job, in the order of the symbols on the lines: in-place sorting of results is sorting of jobs |
| Jobs.JobTable.CreateIfNotExists | internal/repository/postgres.go:28-79 | insert on conflict do nothing under both unique keys, and the stored row with whether it is new; validation and lost-answer errors included |
| Jobs.JobTable.MarkSent | internal/repository/postgres.go:81-83 | the row with this id becomes sent with its sent_at and update time, and nothing else changes |
| Jobs.JobTable.MarkFailed | internal/repository/postgres.go:85-87 | the row with this id becomes failed with its reason; sent_at is not touched |
| Jobs.JobTable.UpdateStatus | internal/repository/postgres.go:111-132 | an update by id through the primary-key index equals the update of the unique row holding that id |
| Jobs.JobTable.DeleteUpdatedBefore | internal/repository/postgres.go:89-109 | removes the oldest rows strictly older than the cutoff, as many as the limit allows, and counts them |
| Cleanups.NotificationJobCleanup.Cleanup | internal/scheduler/notification_job_cleanup.go:72-86 | terminates; at every prefix the removed rows are the oldest stale ones, counted exactly; no call follows the first short batch; without an error exactly the stale rows are gone |
| Cleanups.BatchExtends | internal/scheduler/notification_job_cleanup.go:76-82 | a batch taken oldest first from what is left extends an oldest-first prefix |
| Executors.TargetExecutor.CollectEligible | internal/scheduler/target_executor.go:101-128 | the filter keeps exactly the targets that take part, in order, and reports the first error |
| Executors.TargetExecutor.LoadEligible | internal/scheduler/target_executor.go:104-127 | one target's load: kept, skipped silently, or refused with its error |
| Executors.TargetExecutor.ClaimJobs | internal/scheduler/target_executor.go:135-171 | phase 1 for one target: rows, pending jobs, fetch keys, drop flag and error, where a dropped target leaves its earlier rows and keys |
| Executors.TargetExecutor.ClaimAllJobs | internal/scheduler/target_executor.go:130-172 | phase 1 over all targets equals its specification on the rows before |
| Executors.SortKeys | internal/scheduler/target_executor.go:178-190 | the needed keys, each once, in ascending order of provider and symbol |
| Executors.TargetExecutor.FetchAll | internal/scheduler/target_executor.go:191-215 | one outcome per key: symbol, open, close, volume and percentage of the candle that the key's own provider answered about its symbol, exactly when that provider is enabled and the candle is valid and inside the period, and unavailable otherwise; one request per key of an enabled provider, in order |
| Executors.TargetExecutor.FetchNeeded | internal/scheduler/target_executor.go:177-215 | exactly the needed keys are requested, each once, in ascending order |
| Executors.TargetExecutor.CollectResults | internal/scheduler/target_executor.go:235-254 | every pending job gets the outcome of its own provider and symbol; the fallback for a missing outcome is never taken |
| Executors.TargetExecutor.SendToAll | internal/scheduler/target_executor.go:259-264 | the message is handed once, in order, to every notifier that declares no provider or the target's, to no other, and the error is that of the first of these to err |
| Executors.MarkAll | internal/scheduler/target_executor.go:265-271 | row by row: a listed row whose mark lands becomes sent with sent_at, error cleared, if there was no send error, or failed with the send error and sent_at untouched; every other row is unchanged. The concurrent legacy marking has the same result |
| Executors.TargetExecutor.DeliverToTarget | internal/scheduler/target_executor.go:230-273 | build, send and mark for one target equal the specification; the in-place sort does not disturb which rows are marked |
| Executors.TargetExecutor.DeliverToAll | internal/scheduler/target_executor.go:218-226 | phase 3 over all targets in order, skipping dropped ones |
| Executors.TargetExecutor.Phases | internal/scheduler/target_executor.go:130-227 | the three phases with the early return: rows, messages, first error and fetches |
| Executors.TargetExecutor.RunPhases | internal/scheduler/target_executor.go:101-227 | the filter and the three phases leave the rows and messages of the naive loop and fail exactly when it does |
| Executors.TargetExecutor.Execute | internal/scheduler/target_executor.go:79-228 | nothing when not due or nothing listed; the legacy round without targets; otherwise the naive loop's rows and messages, each needed key fetched once in order |
| Executors.LegacyExecutor.ClaimAndFetch | internal/scheduler/executor.go:57-98 | creation and fetch per symbol; a failing create ends the round with its earlier rows kept |
| Executors.LegacyExecutor.Broadcast | internal/scheduler/executor.go:110-115 | every notifier, whatever it declares, is handed the message once and in order, and the error is that of the last to err |
| Executors.LegacyExecutor.Execute | internal/scheduler/executor.go:47-128 | the legacy round: rows, messages and error as specified |
| RoundProofs.SharedFetchRefinesNaive | internal/scheduler/target_executor.go:101-273 | for distinct targets, any configurations, starting rows and environment, the three phases leave the same rows and ordered messages as the loop that creates, fetches, sends and marks target by target, and the same errors in some order |
| RoundProofs.DeliverCommutesWithClaims | internal/scheduler/target_executor.go:135-226 | delivering to one target before or after the later targets claim their jobs makes no difference |
| RoundProofs.ClaimIsHeld | internal/scheduler/target_executor.go:135-171 | every claimed job is an unsent row of its target under the id it was claimed with, and its key is needed |
| RoundProofs.EligibleAreDistinct | internal/scheduler/target_executor.go:101-128 | distinct listed targets give distinct eligible targets |
| RoundProofs.NothingNeededNothingPending | internal/scheduler/target_executor.go:173-175 | the early return skips nothing: without needed keys no target has a job to deliver |
| SentProofs.SentIsAbsorbing | internal/repository/postgres.go:62-77 | over every run of target and legacy rounds: a row recorded sent never changes again, is in no later message, and sent_at is set exactly on sent rows |
| SentProofs.RunKeepsSent | internal/scheduler/target_executor.go:155-168 | every run keeps ids unique, sent rows untouched, and out of its messages |
| SentProofs.LegacyKeepsSent | internal/scheduler/executor.go:67-73 | the same for a legacy round on the shared table |
| IsolationProofs.FailuresAreIsolated | internal/scheduler/target_executor.go:103-226 | two rounds that differ only in one target's load, creation and send failures agree on all other targets' rows and messages |
| DeliveryProofs.FetchesExactlyTheWanted | internal/scheduler/target_executor.go:134-167 | a key is fetched only if some target wants it from an enabled provider, and every delivered job's key is fetched under its own target's provider |
| DeliveryProofs.ClaimsTheUnsent | internal/scheduler/target_executor.go:136-170 | a target that is not dropped claims exactly the unsent jobs of its symbols, in order |
| RoundMessages.RoundSendsExactly | internal/scheduler/target_executor.go:130-273 | the messages of a whole round, exactly and in order: target after target, each eligible one all of whose jobs can be claimed and that was owed some gets one message about exactly these, once from each notifier without a provider or of the target's; nothing else is sent, and nothing twice |
| RoundMessages.MessageReportsTheUnsent | internal/scheduler/target_executor.go:191-273 | every message of a round has the period and one line for each job its target had unsent before the round: the candle of the job's own provider, exactly when that is enabled and answered inside the period, or unavailable; with honest markets in the order of the jobs' symbols |
| RoundMessages.HandedExactlyOnce | internal/notification/notifier.go:23-31 | for every eligible target that is due a message and every notifier, the message is handed to that notifier exactly once if it declares no provider or the target's, and not at all otherwise; it hands the target nothing else |
| Expectations.SendsToEach | internal/scheduler/target_executor.go:259-264 | the send loop hands the message to each notifier that serves the target once, in order, and to no other |
| Expectations.SendErrsFirst | internal/scheduler/target_executor.go:259-264 | the send loop's error is none if every serving notifier accepts, and otherwise that of the first that does not |
| Expectations.BroadcastsToAll | internal/scheduler/executor.go:110-115 | the legacy send loop hands the message to every notifier once and in order, and its error is that of the last to err |
| RoundMessages.PartAnnounces | internal/scheduler/target_executor.go:230-273 | what one target is sent depends on its own rows and configuration only: its part alone sends exactly the messages announced for it, in the order of the notifiers |
| RoundEffects.RoundMarksExactly | internal/scheduler/target_executor.go:265-271 | after a whole round, a job that a message was due about, if its mark lands, is sent with no error at the time of its mark exactly when every serving notifier accepts the message, and failed for the reason of the first that does not otherwise, with its sent_at as before |
| RoundEffects.RoundTouchesNothingElse | internal/scheduler/target_executor.go:130-273 | every other row is as it was found or created, and there is no row but the old ones and those of the symbols a claim reached |
| RoundEffects.RoundLeavesExactly | internal/scheduler/target_executor.go:101-273 | row by row, a round leaves under a target's keys what that target's part alone would leave, and elsewhere what was there |
| ClaimProofs.DroppedExactly | internal/scheduler/target_executor.go:135-171 | a target is dropped exactly when one of its symbols is unsupported or its job cannot be created, and the first such one is what is reported |
| ClaimProofs.CreatedExactly | internal/scheduler/target_executor.go:135-171 | a claim adds exactly the rows of the symbols up to the first unclaimable one, that one's too if its insert was committed, each pending, with a fresh id and its period, and changes no row |
| FailureProofs.EligibleExactly | internal/scheduler/target_executor.go:101-128 | the eligible targets are, in order, exactly those whose configuration loads, is enabled, names the interval and has an enabled provider, an unset one meaning Binance; exactly failing loads and disabled providers are reported |
| FailureProofs.RoundReportsExactly | internal/scheduler/target_executor.go:101-273 | the errors of a round are exactly those of the filter, the first unclaimable symbol of each dropped target, and the first refusal of each message |
| LegacyEffects.LegacySendsExactly | internal/scheduler/executor.go:47-128 | a legacy round sends nothing unless all jobs can be created and some were unsent; then every notifier is handed the one message about these once, in order; its error is the first job that cannot be created or the last notifier to err |
| LegacyEffects.LegacyLeavesExactly | internal/scheduler/executor.go:57-127 | row by row, what a legacy round leaves: covered jobs sent or failed by the last error, every other row as it was found or created |
| DeliveryProofs.SupportedIsNotRejected | internal/scheduler/target_executor.go:137-144 | a configuration with only supported symbols is never dropped as unsupported |
| SentProofs.SentOnlyWhereRouted | internal/notification/notifier.go:23-31 | a message for a target is handed only to notifiers that declare no provider or the target's |
| Retention.NeverSentAgain | internal/scheduler/notification_job_cleanup.go:72-86 | with executions and cleanup interleaved on a monotone clock, no message covers a key ever recorded sent, even one whose row was deleted, while job creation lags its execution's clock reading by a safe amount |
| Retention.IdempotentExactlyWhenLagIsSafe | internal/repository/postgres.go:94-123 | the safe lag is exact: at most retention less one minute plus a nanosecond, and one nanosecond more lets some run send a key twice |
| Retention.RunKeeps | internal/repository/postgres.go:89-132 | the invariant behind it: a recorded key is still recorded, or too old to be created again |
| Retention.RunRecords | internal/repository/postgres.go:111-132 | every sent row is recorded, and what was recorded stays recorded through sweeps |
| Replay.RoundReplays | internal/scheduler/target_executor.go:79-273 | a round of the target executor with its clock readings in order is a run of the retention system with the same rows, and with a safe lag none of its messages covers a recorded job |
| Replay.LegacyReplays | internal/scheduler/executor.go:47-128 | so is a legacy round on the same table |
| Replay.ExecutionsNeverSendAgain | internal/scheduler/target_executor.go:79-273 | after any run of executions and cleanups with a safe lag, no message of the next round covers a job that was a sent row at any earlier point, even if its row was deleted |
| Replay.LegacyNeverSendsAgain | internal/scheduler/executor.go:47-128 | nor does a message of the next legacy round |
| Configs.Validate | internal/domain/types.go:211-242 | the two passes accept exactly the valid configurations: identified, non-empty, duplicate-free, of known provider and intervals |
| Configs.InsertEach | internal/repository/chat_repository.go:39-51 | the child inserts succeed exactly on duplicate-free values, and store them all |
| Configs.ConfigTables.CreateAlertConfig | internal/repository/postgres.go:222-251 | the transaction succeeds exactly on a valid configuration for a target without one, and otherwise changes nothing |
| Configs.ConfigTables.GetAlertConfig | internal/repository/postgres.go:253-274 | the configuration assembled from the row and the children stored for the target, each listed once and in order, or none |
| Ordering.OneListing | internal/repository/postgres.go:266-271 | a set of children has only one listing in order |
| Configs.ConfigTables.ReplaceAlertConfig | internal/repository/postgres.go:276-326 | succeeds exactly at the expected version; all of row and children are replaced under the next version, or nothing is |
| Configs.ConfigTables.SetAlertConfigEnabled | internal/repository/postgres.go:328-336 | changes the flag, author and version and keeps provider, symbols and intervals, or changes nothing; exactly when |
| ConfigServices.ConfigService.ValidateSymbols | internal/service/configuration/validator.go:10-31 | accepts exactly 1 to max allowed symbols that stay distinct when normalized, and returns them normalized |
| ConfigServices.ConfigService.ValidateIntervals | internal/service/configuration/validator.go:33-50 | accepts exactly non-empty duplicate-free allowed intervals |
| ConfigServices.ConfigService.ValidateProviderSelection | internal/service/configuration/service.go:214-226 | accepts exactly an enabled provider that supports every symbol at every interval |
| ConfigServices.ConfigService.ReplaceConfig | internal/service/configuration/service.go:140-174 | exactly when it succeeds, and the tables it leaves |
| ConfigServices.ConfigService.CreateConfig | internal/service/configuration/service.go:176-201 | exactly when it succeeds, and the tables it leaves |
| ConfigServices.ConfigService.GetOrCreateConfig | internal/service/configuration/service.go:98-118 | an existing configuration is returned, effective and canonical, without a write; a missing one is created disabled exactly when the default provider offers the first symbol at the first interval |
| ConfigServices.FirstConfigureCanFail | internal/service/configuration/service.go:108 | settings under which a first Configure fails for every actor, although another symbol would be accepted |
| ConfigServices.AcceptedIsStorable | internal/service/configuration/service.go:151-165 | what passes the service's checks is non-empty, within the limit, of an enabled provider, and supported pair by pair |
| ConfigServices.AcceptedIsValid | internal/service/configuration/service.go:166-174 | what passes the service's checks passes the repository's validation |
| ConfigServices.StoredIsValid | internal/repository/postgres.go:328-336 | what is stored passes validation again when it is written back |
| ChatTheorems.CommitsAreALine | internal/repository/postgres.go:285-321 | over every interleaving, a target's commits are versions 0, 1, 2, ... without gap, each one atomic operation applied to exactly the version it was based on; one creation per target, disabled; the tables hold the last |
| ChatTheorems.TogglesAreAtomic | internal/chat/service.go:84-98 | in every reachable state, an Enable or Pause at its transaction succeeds exactly when the version Handle read first is current, and then changes the flag, author and version of what is stored and nothing else, however torn its reads |
| ChatTheorems.SavesAreAtomic | internal/chat/service.go:148-179 | a save succeeds exactly when its session's base version was read and is still current and the selection is accepted; it stores the selection and keeps the current flag |
| ChatTheorems.OneCommitPerSession | internal/chat/service.go:160-178 | a session commits at most once, to its own target, on top of the version it was opened at, even under concurrent saves |
| ChatTheorems.CommitsAreKept | internal/repository/postgres.go:276-326 | commits are only ever appended to |
| ChatTheorems.StoredConfigsAreSupported | internal/service/configuration/service.go:140-226 | in every reachable state every stored version is non-empty, within the symbol limit, of an enabled provider, and supported pair by pair |
| ChatTheorems.SessionsEndOnce | internal/chat/session.go:56-104 | a session's target, actor, base version and expiry never change; once removed it never returns, and once removed or expired no fetch ever yields it, whatever late updates arrive |
| ChatTheorems.SessionsGoToTheirOwners | internal/chat/service.go:152-158 | in every reachable state an operation gets hold of a session exactly when it is neither removed nor expired and was opened by the same actor for the same target |
| ChatTheorems.StaleSessionsNeverCommit | internal/chat/service.go:160-166 | once another operation committed on a session's base version, the session never commits |
| ChatTheorems.TornSessionsNeverCommit | internal/chat/service.go:68-82 | a session opened on a torn read can never be saved |
| ChatPaths.OperationsContinue | internal/chat/service.go:43-190 | however its steps are interleaved, an operation keeps its target, actor, flag, session and selection, and the version that it read first |
| ChatPaths.UpdatesAreStored | internal/chat/service.go:124-146 | an update that fetches a live session of its own actor and is validated in time replaces exactly the provider, symbols and intervals of the session by those given, whatever is interleaved, and never brings back a session that is gone |
| ChatPaths.LateUpdatesEnd | internal/chat/session.go:83-94 | an update that is validated when the session is over ends without an effect |
| ChatPaths.RefusedFetchesEnd | internal/chat/service.go:135-141 | an operation that asks for a session that is gone, over or not its own ends there, and removes the session exactly when it is over |
| ChatPaths.SavesWhatWasFetched | internal/chat/service.go:148-158 | a save works on the session as the store held it when it was fetched |
| ChatPaths.TogglesWhatWasRead | internal/chat/service.go:84-98 | once Handle has read its row, an Enable or Pause sets the flag asked for on exactly that version or does nothing |
| ChatPaths.CancelsRemove | internal/chat/service.go:182-190 | a cancel removes the actor's own live session for good, and nothing else |
| ChatPaths.CreationsAreAtomic | internal/service/configuration/service.go:98-118 | a first create succeeds exactly when the default provider offers the first symbol at the first interval, actor and target are named and there is no row; then it stores that pair, disabled, and nothing else |
| ChatPaths.OnlyConfigureCreates | internal/service/configuration/service.go:98-109 | where a configuration is missing, the first read of Configure goes on to create it and every other operation ends |
| ChatRuns.RunKeeps | internal/chat/service.go:43-190 | every run of configure, update, save, cancel, enable, pause and reads keeps the invariant and only moves forward |
| ChatRuns.ReadIsCurrent | internal/repository/postgres.go:253-274 | a read that began at the version still current is not torn |
| TornReads.StoredConfigsAreNeverDropped | internal/scheduler/target_executor.go:101-172 | a round whose loads are completed reads of the protocol, or failed, never refuses a provider and never drops a target as unsupported, as long as each row and its symbols were read under one provider |
| TornReads.RejectedExactlyWhen | internal/scheduler/target_executor.go:101-172 | in a round whose job creations are carried out, a loaded target is dropped as unsupported exactly when the row it read is enabled, the intervals it read include the round's, and the provider of the row does not offer the symbols it read |
| RejectionProofs.RoundNamesExactly | internal/scheduler/target_executor.go:135-144 | a round reports a target as unsupported only if it is eligible with an unsupported symbol, and then always when job creations are carried out |
| TornRun.TornLoadIsRejected | internal/repository/postgres.go:253-274 | a concrete run in which a save between the first two statements of a round's load makes the round drop an enabled target and send nothing, although every version of its configuration is supported |
| SessionStores.Clone | internal/chat/session.go:106-110 | a copy with the same content in a fresh array |
| SessionStores.MemorySessionStore.Create | internal/chat/session.go:56-67 | as a map of values: added exactly when alive and new; the store keeps fresh arrays, none of the caller's |
| SessionStores.MemorySessionStore.Get | internal/chat/session.go:69-81 | as a map of values: found exactly when alive, purged when dead; what is handed out is fresh |
| SessionStores.MemorySessionStore.Update | internal/chat/session.go:83-94 | as a map of values: replaced exactly when alive and present; the store keeps fresh arrays |
| SessionStores.MemorySessionStore.Delete | internal/chat/session.go:96-104 | as a map of values: removed, and whether it was there |
| SessionStores.ToggleInPlace | internal/chat/telegram/webhook.go:509-525 | the in-place toggle yields the toggled sequence, in the caller's array or a fresh one |
| SessionStores.ToggleCopy | internal/chat/slack/webhook.go:407-423 | the copying toggle yields the same sequence in a fresh array and changes nothing |
| SessionStores.UpdateSession | internal/chat/service.go:124-146 | exactly when the session is the actor's own and usable at both times, its provider, symbols and intervals become those given; its id, target, actor, base and expiry and every other session are as before |
| SessionStores.ToggleSymbol | internal/chat/telegram/webhook.go:241-247 | the stored symbols become the old ones without the symbol, or with it appended, and nothing else changes; between fetch and update the in-place toggle has not changed the store |
| Guided.AvailableSymbols | internal/chat/telegram/webhook.go:412-423 | exactly the configured symbols the provider supports at some configured interval, in order |
| Guided.FilterStrings | internal/chat/telegram/webhook.go:446-454 | exactly the values that are allowed, in order |
| Guided.ToggledSet | internal/chat/telegram/webhook.go:509-516 | a toggle is a symmetric difference and keeps a selection duplicate-free |
| Guided.TogglingTwiceRestores | internal/chat/telegram/webhook.go:509-525 | toggling twice restores the selected set |
| Guided.PressesExactly | internal/chat/telegram/webhook.go:226-258 | what a press does: an enabled provider is taken over and keeps exactly the selected values that it offers, in order; a symbol or interval leaves the selection or joins it at its end; nothing else changes |
| Guided.OfferedPicks | internal/chat/telegram/webhook.go:412-423 | the symbol controls are exactly the configured symbols supported at some configured interval, at their positions |
| Guided.ControlsCombine | internal/chat/telegram/webhook.go:412-436 | any offered symbol and any offered interval of a provider are supported together |
| Guided.GuidedSelectionsAreSaveable | internal/chat/slack/webhook.go:261-284 | after an enabled provider is chosen, any presses on shown controls lead to a duplicate-free selection that a save accepts exactly when it has 1 to max symbols, an interval and a named actor |
| Guided.EditsOfStoredAreSaveable | internal/chat/telegram/webhook.go:226-258 | the same for any presses on a session opened on a stored configuration, without choosing a provider |
| Openings.OpensExactly | internal/chat/session.go:113-126 | Configure opens a session of its actor and target that expires ttl after the clock, based on the version it read, selecting all intervals read, each once in order, and the symbols and provider read, effective and canonical unless created just now; nothing else changes |
| Openings.OpensOnItsVersion | internal/chat/service.go:68-82 | what an untorn opening read is the content of the session's base version in the target's history |
| Openings.UntouchedSavesRestore | internal/chat/service.go:68-179 | opening a session on an untorn read and saving it without a press stores the content of its base version again, when the mapping leaves its symbols alone, exactly if nothing was committed in between and the actor is named |
| GuidedSessions.OpenedSessionsAreSaveable | internal/chat/service.go:68-82 | any presses on shown controls, starting from the session that Configure opens on an untorn read, lead to a selection a save accepts exactly when it has 1 to max symbols, an interval and a named actor, if the canonical forms of the stored symbols are distinct and offered |
| GuidedSessions.RegistrySessionsAreSaveable | internal/market/registry.go:41-58 | the same for every session opened on an untorn read, when the canonical mapping is the registry's and the names in the market configuration are distinct; nothing is asked of the read |
| GuidedSessions.OpenedIsOfferable | internal/service/configuration/service.go:98-138 | such a session starts from an offerable selection exactly when it was just created or the canonical forms of the stored symbols are distinct and offered |
| GuidedSessions.RegistryLeavesConfigured | internal/service/configuration/service.go:120-138 | with distinct names in the market configuration the canonical mapping leaves a provider's symbols as they are |
| Inbound.EventTable.ClaimInboundEvent | internal/repository/postgres.go:338-360 | insert on conflict do nothing: a new event with an id is added as received if the insert is committed, and claimed exactly if its answer arrived too |
| Inbound.EventTable.UpdateInboundEvent | internal/repository/postgres.go:370-379 | sets the status of the event, if it exists, and of no other |
| Inbound.ProcessingStartsAtMostOnce | internal/chat/slack/webhook.go:155-177 | however deliveries interleave, repeat, fail or stop, processing of an event starts at most once |
| Inbound.DeliveriesHandled | internal/chat/telegram/webhook.go:80-111 | the first delivery of an event starts its processing once and records the outcome, a later one changes nothing, and one whose claim is committed but not answered leaves the event received and unprocessed |
| Inbound.StatusesSettle | internal/chat/telegram/webhook.go:80-111 | an event's status moves at most once, from received to processed or failed, and stays |

## Left out

- HTTP clients, JSON, retries and timers of Binance, CoinMarketCap, Telegram and Slack: the market and the notifiers are oracles that answer or fail.
- Formatting of prices, percentages and volumes: a line is an abstract value of its result, the icon included.
- GORM, SQL collation, schema migration and uuid parsing: statements are modelled by their effect, ids are numbers or texts, and texts are ordered by character.
- Daylight saving and offsets finer than a minute: one fixed offset in whole minutes. Parsing of the "15:04" window texts.
- Unicode trimming and upper-casing: `trim` and `normalize` are arbitrary functions. The service's `canonical` is one too; `GuidedSessions.LooksUp` says when it is the registry's. That canonical symbols stay distinct is not claimed, and is not true of every configuration.
- `ProviderRegistry.Enabled`: only membership in its result matters to the modelled code.
- Authorization, signature checks, target creation, message and keyboard texts, Show's text, the HTTP routes and the wiring of the program.
- The executor's mutex: one `Execute` is one call of a method. Its effect on interleaving is in `Retention`, where at most one execution is in flight.
- Concurrent marking in the legacy executor: marking is modelled in an arbitrary order whose result is proved not to depend on it.
- The legacy executor's market requests: they are not logged, only their results.
- The `updated_at` of configurations, and wrap-around of 64-bit versions.
- `Handle`, `saveSession` and `deleteOwnedSession` appear in the step system, on values, rather than as methods on the heap, because their reads and writes interleave; `UpdateSession` appears in both forms.
- No-lost-edits between concurrent updates of one session: the last one wins, in the program too.
- That a sent message was received by someone: a notifier of another chat provider is skipped without an error.
- Exactly-once delivery when recording a send fails: the message goes out again in a later execution of the period.
- Guided.AvailableSymbols: the interval list is built by the same loop with the lists exchanged and is only specified (`OfferedIntervals`), not repeated as a method.
- ConfigServices.ConfigService.GetOrCreateConfig: this method is the undisturbed call; the second read after a lost creation race is a step of `ChatProtocol`.
- Executors.TargetExecutor.Execute: its environment fixes one answer per configuration load; `TornReads.LoadsFrom` says which answers completed reads can give.
