# Forgelet: a verified model

Forgelet ingests deliveries of repository events, compiles them to runs of jobs,
dispatches the jobs to a Kubernetes-side store, projects what is observed there
back to the durable store, and collects what is finished. This project models
that core in Dafny 4.11 and proves what every run of it keeps.
`dafny verify dfyconfig.toml` checks everything.

The parts, hardest first:

- **Durable store and protocol** (`RunModel`, `StoreSpec`, `StoreInvariants`,
  `StoreGrowth`, `StoreHistory`, `StoreClaims`, `StoreServed`, `StoreEffects`,
  `StoreLater`, `StoreLimits`, `StoreWitness`, `PostgresQuery`, `DurableStores`,
  `Protocol`, `ProtocolTheorems`, `ProtocolProgress`, `ProtocolLeaks`,
  `ProtocolEvents`, `Scheduler`). The store is a
  value with one function per operation; a class with the source's maps is proved
  to compute these functions. Histories are arbitrary call sequences. The system
  is a state machine in which dispatcher check, create and acknowledge, collector
  list, delete and mark, and ingester record, compile, create and report are
  separate steps of any number of workers, each of which may vanish at any point.
- **Expressions** (`Lexing`, `Scanner`, `Parsing`, `ExpressionParser`, `Printing`,
  `ParserFacts`, `ParserBalance`, `ParserCalls`, `Evaluation`, `Operators`, `Builtins`,
  `Lookups`, `Formatting`, `Templates`, `Conditions`, `ConditionOutcomes`, `Marks`,
  `StatusCalls`). Lexing and parsing are
  functions on what is left; the lexer and parser objects, with positions, are
  proved to compute them. Printing is their inverse. Evaluation is a function
  with one fixed order of searching objects, and beside it the relation of all
  outcomes searches in any order allow.
- **Deferred conditions** (`Deferral`, `Undated`, `DeferredLoop`, `JobConditions`,
  `NeedsCompared`, `NeedsStatus`, `NeedsSpelling`, `ConditionContexts`,
  `ClaimedConditions`), where store and expressions meet.
- **Compiler algorithms** (`JobOrder`, `MatrixExpansion`, `EditDistance`).
- **Executor** (`Executor`, `ExecutorTrace`, `ExecutorEnv`, `FileCommands`, `Masking`,
  `Globbing`).

`Prelude`, `Text` and `Sorting` hold shared definitions.

## What the code does not keep

Each of these is a documented or expected property that fails, with a witness
and the condition under which it holds.

- Run creation promises that either all its writes are visible or none. A
  workflow with a repeated job key leaves claimable jobs without a run
  (`StoreLimits.CreateRunAtomicity`), and that run never exists later
  (`StoreLimits.LeftBehindForever`). Rerequesting such a job writes into a
  missing map (`StoreLimits.RerequestPanics`, `StoreLimits.PanicIsReachable`).
- Collection is described as converging. The object of an ended job can be
  removed exactly when the job is uncollected and its run exists, or a collector
  has it on its list (`ProtocolLeaks.RemovableIff`); once gone, it can come back
  exactly when a dispatcher is past its check of the job
  (`ProtocolLeaks.ReturnsIff`). So an object stays for good after a dispatcher
  passed its check before a cancel and a full collection
  (`ProtocolLeaks.StaleDispatchLeaks`), and after a job without a run has been
  dispatched and has ended (`ProtocolLeaks.UncommittedLeaks`). The empty system
  reaches both.
- The creation of a run is reported at most once, not exactly once: a crash
  between the commit and the answer loses the report
  (`ProtocolTheorems.ReportedEverIff`, `ProtocolLeaks.LostReportReachable`).
- A run need not have the event its delivery was recorded with: the ingester that
  creates it brings its own copy (`ProtocolEvents.EventsAgreeIff`,
  `ProtocolEvents.EventsPartReachable`). One event in all receipts of the key is
  enough (`ProtocolEvents.RunHasDeliveredEvent`).
- The memory and PostgreSQL dependency classifiers differ on repeated and unknown
  keys (`PostgresQuery.ClassifiersAgree`, `PostgresQuery.ClassifiersDiffer`), and
  the query then blocks in every later state (`PostgresQuery.BlocksForever`).
- Conditions that call no status function are documented to become
  `success() && (...)`. The code looks for marks in the text instead. A condition
  that calls one is rewritten exactly when blanks separate every such name from
  its parenthesis and no other token carries a mark
  (`StatusCalls.CallingRewrittenIff`, `Conditions.BlankCallNeverHolds`); one that
  calls none is left alone exactly when a string literal, a longer identifier or a
  `needs` or `job` context carries a mark (`StatusCalls.NotCallingKeptIff`,
  `StatusCalls.LiteralHoldsAlways`, `StatusCalls.JobHoldsOnFailure`).
- Wrapping keeps meaning for texts whose tokens never close more parentheses than
  they opened (`Conditions.WrapKeepsMeaningIff`); other texts are no expressions
  (`Conditions.OutsideNeverParses`) and can mean something wrapped
  (`Conditions.EscapeHoldsAlways`).
- An expression is expected to have one value in one environment. Objects are
  searched in random order, so it has exactly when no object in reach holds two
  spellings of a key with different values (`Lookups.OneOutcomeIff`,
  `Lookups.TwoSpellings`). Job keys may differ in case only, and then the store
  that deferred conditions settle in depends on the searches
  (`NeedsSpelling.TwoSettledStores`); with clear keys it does not
  (`JobConditions.SettlesOnce`, `JobConditions.KeysClearIff`).
- A condition is expected to decide whether its job runs. A claim from a settled
  store keeps to that for deferred conditions of jobs whose needs have all ended
  (`ClaimedConditions.HandedOutHolds`). Every other condition is not looked at
  again, and a job with failed needs that has one is handed out: after a failed
  need although the condition calls no status function and so implies success()
  (`ClaimedConditions.EagerRunsAnyway`), and after one failed need while another
  still runs, even under success() itself (`ClaimedConditions.OpenNeedRunsAnyway`).
- Rerequesting a job reopens its run, but every attempt counts towards the run: one
  with a failed or cancelled attempt never succeeds (`StoreHistory.NeverGreenAgain`).
- Observations move jobs that were never acknowledged as dispatched, against the
  table of legal moves (`StoreEffects.ObservationMoves`).
- Equality of values is no equivalence (`Operators.EqualNotTransitive`).
- `success()` in a deferred condition looks at every attempt of a need, old ones
  included, and a skipped need does not count against it
  (`JobConditions.StatusSuccessIff`). It agrees with the claim's dependency test
  under an exact condition (`NeedsCompared.StatusAgreesIff`); a need that failed
  once and then succeeded is ready for the claim and gets the job skipped
  (`NeedsCompared.RetriedNeedSkips`).
- Masking hides a single value only if no occurrence of it can overlap the stars
  it is replaced by (`Masking.MaskableIff`).
- Splitting a matrix part at the first `=` loses an axis name that contains one
  (`MatrixExpansion.SplitRecoversIff`). Instance keys are distinct exactly when
  axis values are, as long as commas occur on one axis at most
  (`MatrixExpansion.KeysDistinctIff`); with commas on two axes they can collide
  (`MatrixExpansion.CommasCollide`), and no exact condition is given there.
- Inside a job, `job.status` is always `success` (`Executor.StatusIsSuccess`): the
  branch that reports a failure is never reached.

## Conventions

Ids minted by the store are arguments assumed fresh; clock readings are arguments,
one for each place at which the source reads the clock.
Lock-protected methods are single steps. Numbers in expressions keep their
lexeme; parsing and showing floats, the JSON functions, `path.Match`, the file
hasher and the processes, files and cancellation of the executor are inputs.
Text is a sequence of characters, with ASCII case and white space.

## Model

| member | source | states |
|---|---|---|
| `RunModel.AggregateTerminal` | internal/run/model/status.go:148-194 | the aggregate of a run's jobs is terminal exactly when there are jobs and all of them are terminal |
| `RunModel.AggregateVerdict` | internal/run/model/status.go:169-193 | the aggregate is that status |
| `RunModel.VerdictUnique` | internal/run/model/status.go:169-193 | no two statuses tell the same jobs |
| `RunModel.AggregateRunStatus` | internal/run/model/status.go:148-194 | the flag-collecting loop yields the one status that tells the jobs: failed exactly with a failed job, cancelled exactly with a cancelled and no failed one, succeeded exactly when all succeeded or were skipped, running exactly with a running or dispatched one, queued else |
| `StoreSpec.DistinctPrefixMeaning` | internal/storage/memory/store.go:99-113 | the loop stops at the first intent whose key occurred before, and at no other |
| `StoreSpec.AddJobsMeaning` | internal/storage/memory/store.go:99-120 | exactly the written ids are added, each with its own intent as attempt 1, and no other record changes |
| `StoreSpec.KeyIndexMeaning` | internal/storage/memory/store.go:99-120 | the new key index maps exactly the intents' keys, each to the id minted for it |
| `StoreSpec.NextAttempt` | internal/storage/memory/store.go:392-412 | finds a listed attempt of the same key that follows the given one, and none only if none is listed |
| `StoreInvariants.RecordKeeps` | internal/storage/memory/store.go:63-73 | recording a delivery keeps the store invariant and rewrites nothing |
| `StoreInvariants.RefreshKeeps` | internal/storage/memory/store.go:488-506 | refreshing a run keeps the invariant and moves the run forward only |
| `StoreInvariants.RefreshCloses` | internal/storage/memory/store.go:488-506 | refreshing an open run closes it exactly when its last job is closed, with the aggregate as verdict |
| `StoreInvariants.ReleaseKeeps` | internal/storage/memory/store.go:293-298 | releasing a claim keeps the invariant and changes no record |
| `StoreInvariants.AckKeeps` | internal/storage/memory/store.go:301-325 | acknowledging a dispatch keeps the invariant; ranks do not fall and closed jobs stay as they are |
| `StoreInvariants.ObserveKeeps` | internal/storage/memory/store.go:328-358 | projecting any phase at any time keeps the invariant; ranks do not fall and closed jobs stay as they are |
| `StoreInvariants.SkipKeeps` | internal/storage/memory/store.go:242-249 | skipping a queued job during a claim keeps the invariant and closes its run when it was the last open job |
| `StoreInvariants.CancelKeeps` | internal/storage/memory/store.go:361-389 | cancelling a run keeps the invariant: every open job and the run are closed together |
| `StoreInvariants.MarkKeeps` | internal/storage/memory/store.go:432-445 | marking a job collected keeps the invariant and changes no status |
| `StoreGrowth.CreateKeeps` | internal/storage/memory/store.go:76-130 | creating a run keeps the invariant for every outcome, the one that leaves jobs behind included |
| `StoreGrowth.RerequestKeeps` | internal/storage/memory/store.go:392-429 | rerequesting keeps the invariant: the new attempt tops an unbroken ladder and a closed run is open again |
| `StoreGrowth.RerequestStable` | internal/storage/memory/store.go:392-429 | rerequesting a job of a committed run returns the same new id in every later state and then changes nothing |
| `StoreGrowth.ClaimKeeps` | internal/storage/memory/store.go:208-266 | a claim keeps the invariant, whatever it skips on the way |
| `StoreHistory.Step` | internal/storage/memory/store.go:63-475 | every operation, with any arguments, keeps the invariant and loses nothing |
| `StoreHistory.HistoryKeeps` | internal/storage/memory/store.go:63-475 | after every sequence of operations the invariant holds and nothing recorded on the way is lost or rewritten |
| `StoreHistory.ClosedAfterHistory` | internal/storage/memory/store.go:488-506 | after every sequence of operations a run is terminal exactly when all its attempts are and succeeded exactly when every attempt succeeded or was skipped; failed and cancelled ones have such an attempt, and which of the two follows from the attempts unless both occur; it is running when an attempt is and queued when all are; times are set exactly on what is terminal, dispatched or running |
| `StoreHistory.NeverGreenAgain` | internal/storage/memory/store.go:392-429 | once an attempt of a run has failed or was cancelled, the run succeeds in no later state, whatever is rerequested |
| `StoreHistory.RanksAlongHistory` | internal/run/model/status.go:56-146 | along every sequence of operations no job's rank falls and no terminal job changes status, although runs are reopened |
| `StoreHistory.AttemptsAfterHistory` | internal/storage/memory/store.go:392-429 | after every sequence of operations the attempts of a key are exactly 1..k, each once, and the index points at attempt k |
| `StoreClaims.ScanDepsMeaning` | internal/storage/memory/store.go:269-290 | the classifier with its early exits is ready exactly when every newest attempt succeeded, failed exactly when a known one ended otherwise before an unknown key is met |
| `StoreClaims.DependencyMeaning` | internal/storage/memory/store.go:269-290 | a job is ready exactly when the newest attempt of every need succeeded, so always without needs, and failed exactly when one ended otherwise before an unknown key |
| `StoreClaims.ClaimPicksFirst` | internal/storage/memory/store.go:208-266 | the claim hands out the first job in (created, id) order that has its needs met, or failed with a condition left, when it is examined, and none only if there is none |
| `StoreServed.ClaimEffect` | internal/storage/memory/store.go:208-266 | the whole effect of a claim: passed jobs whose needs have failed are skipped, each at its own time, the one handed out is claimed, no other job changes |
| `StoreServed.ReadyIsServed` | internal/storage/memory/store.go:208-266 | whenever a queued, unclaimed job has its needs met, the claim hands out that job or an older one |
| `StoreClaims.HandedOutIsReady` | internal/storage/memory/store.go:208-266 | a job handed out without condition has the newest attempt of every dependency succeeded |
| `StoreClaims.GrantsBounded` | internal/storage/memory/store.go:208-298 | over every sequence of operations a job id is handed out at most once more than it was released |
| `StoreEffects.ObserveEffect` | internal/storage/memory/store.go:328-358 | what every phase makes of an open job and its times; nothing of a closed one, and of no other job |
| `StoreEffects.AckEffect` | internal/storage/memory/store.go:301-325 | exactly a queued job, or a dispatched one without another name, takes the object; the three refusals change nothing |
| `StoreEffects.ReleaseEffect` | internal/storage/memory/store.go:293-298 | a queued job is claimable again, and nothing else changes |
| `StoreEffects.MarkEffect` | internal/storage/memory/store.go:432-445 | the first mark stays, and nothing else changes |
| `StoreEffects.NamesMeetIff` | internal/run/model/run.go:120-122 | two jobs have objects of one name exactly when their ids differ in case only |
| `StoreEffects.TransitionTable` | internal/run/model/status.go:88-111 | which moves are legal |
| `StoreEffects.ObservationMoves` | internal/storage/memory/store.go:328-358 | an observation keeps to the table of legal moves exactly unless it starts or ends a job still queued |
| `StoreEffects.CancelEffect` | internal/storage/memory/store.go:361-389 | exactly the open jobs of an open run, and the run, are cancelled at that time; every refusal |
| `StoreEffects.RerequestEffect` | internal/storage/memory/store.go:392-429 | rerequesting the newest attempt of a committed run adds one queued copy, numbered one higher and created now, and queues a closed run; any other attempt gets the one that follows it |
| `StoreEffects.AttemptQueuesLast` | internal/storage/memory/store.go:392-429 | the new attempt queues behind every claimable job that is older than it |
| `StoreEffects.CreateMakesRunIff` | internal/storage/memory/store.go:76-130 | a run is made exactly for a recorded delivery without one and jobs of distinct keys: queued, with its event, a first attempt per job, in order |
| `StoreEffects.CreateRefusals` | internal/storage/memory/store.go:80-102 | every refusal has its one reason |
| `StoreEffects.FirstReceiptKept` | internal/storage/memory/store.go:63-73 | along every sequence of operations a delivery keeps event, payload and time of its first receipt |
| `StoreLimits.CreateRunAtomicity` | internal/storage/memory/store.go:99-130 | a creation without run leaves the store alone exactly when it does not reach the writing loop with a repeated key; otherwise claimable jobs without run stay behind |
| `StoreLimits.LeftBehindForever` | internal/storage/memory/store.go:99-130 | in every later state the run of such jobs still does not exist |
| `StoreLater.NeverCommitted` | internal/storage/memory/store.go:76-429 | no sequence of operations makes a run appear beside jobs that were there without it |
| `StoreLater.KeysFixed` | internal/storage/memory/store.go:122-126 | no sequence of operations changes which job keys a run has |
| `StoreLimits.RerequestPanics` | internal/storage/memory/store.go:392-429 | rerequesting writes into a missing map exactly for a job whose run was never committed and that has no listed next attempt |
| `StoreLimits.PanicIsReachable` | internal/storage/memory/store.go:99-130 | one delivery and one workflow with a repeated key lead there |
| `PostgresQuery.ClassifyRows` | internal/storage/postgres/store.go:362-393 | the loop over the queried statuses classifies by row count, failures and successes |
| `PostgresQuery.ClassifiersAgree` | internal/storage/postgres/store.go:362-393 | the memory classifier agrees with the newest-attempt query exactly when the keys are distinct and known, or neither all newest attempts succeeded nor one ended otherwise before an unknown key |
| `PostgresQuery.BlocksForever` | internal/storage/postgres/store.go:379-381 | with a repeated or unknown key the query blocks in every later state |
| `PostgresQuery.ClassifiersDiffer` | internal/storage/postgres/store.go:362-393 | a reachable run in which memory is ready and the query blocks: a need named twice that has succeeded |
| `DurableStores.QueueUnique` | internal/storage/memory/store.go:213-230 | the claim queue of a store is unique, so a claim has one answer |
| `DurableStores.DurableStore.constructor` | internal/storage/memory/store.go:43-60 | the empty store satisfies the invariant |
| `DurableStores.DurableStore.RecordDelivery` | internal/storage/memory/store.go:63-73 | the first receipt of a key wins; created tells whether this was it |
| `DurableStores.DurableStore.CreateRun` | internal/storage/memory/store.go:76-130 | the whole new state and outcome, on every path, jobs written before a repeated key is noticed included |
| `DurableStores.DurableStore.RefreshRun` | internal/storage/memory/store.go:488-506 | the run moves to the aggregate of its jobs, forward only |
| `DurableStores.DurableStore.DependencyState` | internal/storage/memory/store.go:269-290 | the loop with its early exits is ready exactly when all needs are met, failed exactly when they have failed |
| `DurableStores.DurableStore.ClaimNextQueuedJob` | internal/storage/memory/store.go:208-266 | one legal claim step on the sorted queue, the clock read for every skip; the returned record is the claimed job's |
| `DurableStores.DurableStore.ReleaseClaim` | internal/storage/memory/store.go:293-298 | only the claim disappears |
| `DurableStores.DurableStore.AckDispatched` | internal/storage/memory/store.go:301-325 | the whole new state and the refusals: unknown job, other name, not dispatchable |
| `DurableStores.DurableStore.ApplyObserved` | internal/storage/memory/store.go:328-358 | the whole new state for every phase; stale and terminal ones change nothing |
| `DurableStores.DurableStore.CancelRun` | internal/storage/memory/store.go:361-389 | every open job of the run and the run are cancelled, claims dropped; refusals as the source has them |
| `DurableStores.DurableStore.RerequestJob` | internal/storage/memory/store.go:392-429 | the whole new state and the outcome, the missing index included |
| `DurableStores.DurableStore.MarkCollected` | internal/storage/memory/store.go:432-445 | the first collection time is kept |
| `DurableStores.DurableStore.ListQueuedJobs` | internal/storage/memory/store.go:176-192 | exactly the queued jobs, oldest first, ties by id |
| `DurableStores.DurableStore.ListJobRuns` | internal/storage/memory/store.go:148-160 | the records of a run's jobs in list order; none for an unknown run |
| `DurableStores.DurableStore.ListGCReadyJobs` | internal/storage/memory/store.go:459-475 | exactly the uncollected terminal jobs of terminal runs |
| `DurableStores.ActiveStore.CreateOrGet` | internal/storage/memory/store.go:536-553 | inserts the object only if none exists under the id and counts insertions |
| `DurableStores.ActiveStore.Delete` | internal/storage/memory/store.go:556-562 | removes the object; a missing one is a success |
| `Scheduler.Scheduler.Dispatch` | internal/run/scheduler/dispatcher.go:57-73 | check, create-or-get and ack are the protocol's three steps in order; each failure leaves the stores as that step found them |
| `Scheduler.Scheduler.DispatchNext` | internal/run/scheduler/dispatcher.go:37-55 | the job is the one the claim picks from the queue; both stores and the outcome for every fault, the claim given back when dispatching fails |
| `Scheduler.Scheduler.Collect` | internal/run/scheduler/projector.go:60-76 | for every failing call: which jobs of the list of exactly the ready ones lose their object, which are marked, each at its own time, and the count returned |
| `Scheduler.CollectionConverges` | internal/run/scheduler/projector.go:36-76 | after a pass cut short at any call, a pass that is not leaves every job that was ready marked and without object |
| `Scheduler.CutShort` | internal/run/scheduler/projector.go:66-74 | where the marking of a job fails its object is gone and the job still ready, where its deletion fails its object is still there |
| `Scheduler.Scheduler.Ingest` | internal/run/scheduler/ingestor.go:32-63 | which answer and which store for a bound delivery, a compile error, an invalid job, no jobs, and every outcome of the creation |
| `Scheduler.IngestAnswers` | internal/run/scheduler/ingestor.go:32-63 | exactly which delivery gets which answer |
| `Protocol.NextKeeps` | internal/run/scheduler/dispatcher.go:57-73 | every atomic step of dispatchers, collectors, ingesters and outside callers, and every crash, keeps the system invariant |
| `Protocol.ReachableKeeps` | internal/run/scheduler/projector.go:60-76 | the system invariant holds in every reachable state |
| `ProtocolTheorems.DispatchedHasObject` | internal/run/scheduler/dispatcher.go:57-73 | in every reachable state a dispatched job has its active object under the name derived from its id, and so has every open job once acknowledged |
| `ProtocolTheorems.OneObjectWhileOpen` | internal/storage/memory/store.go:536-562 | while a job is open, all dispatch calls together have inserted at most one object for it, and it is there exactly then |
| `ProtocolTheorems.DeletesOnlyEnded` | internal/run/scheduler/projector.go:60-76 | whichever step removes an object, its job is terminal |
| `ProtocolTheorems.ReachesGrow` | internal/run/scheduler/ingestor.go:32-63 | no step of any interleaving loses or rewrites a receipt, binding, run or job |
| `ProtocolTheorems.IngestionExactlyOnce` | internal/run/scheduler/ingestor.go:32-63 | under every interleaving and crash a delivery binds to at most one run, forever, is that run's only delivery and keeps its first event and payload; its creation is reported or about to be reported at most once in all |
| `ProtocolTheorems.ReportedEverIff` | internal/run/scheduler/ingestor.go:57-62 | the creation of a bound delivery's run is ever reported exactly when it has been or the worker that holds the answer is still there: a crash between commit and answer loses the report |
| `ProtocolLeaks.LostReportReachable` | internal/run/scheduler/ingestor.go:57-62 | the empty system reaches a bound delivery whose creation no continuation reports |
| `ProtocolEvents.RunHasDeliveredEvent` | internal/run/scheduler/ingestor.go:32-63 | where all receipts of a delivery bring one event, its run and the recorded delivery have it, under every interleaving and crash |
| `ProtocolEvents.EventsAgreeIff` | internal/run/scheduler/ingestor.go:57-57 | ever after its creation a run's event is its delivery's exactly when the creating ingester carried the event first recorded |
| `ProtocolEvents.EventsPartReachable` | internal/run/scheduler/ingestor.go:32-63 | the empty system reaches a run whose event is not its delivery's, through two receipts of one key |
| `ProtocolProgress.DispatchConverges` | internal/run/scheduler/dispatcher.go:57-73 | from every state of the system one dispatch of a queued or dispatched job leaves it dispatched with its object, inserted once, and touches no other object |
| `ProtocolProgress.CheckRefuses` | internal/run/scheduler/dispatcher.go:57-63 | no other job passes the check |
| `ProtocolProgress.ReplayCompletes` | internal/run/scheduler/ingestor.go:29-63 | from every state of the system one more ingestion of a delivery without run makes its run of exactly these jobs and reports it once |
| `ProtocolProgress.ListedIff` | internal/run/scheduler/projector.go:60-64 | a collector lists a job exactly when the job and its run are over and the job is not marked |
| `ProtocolProgress.ListedRunIsOver` | internal/run/scheduler/projector.go:38-41 | so every attempt of the run has ended |
| `ProtocolLeaks.ReturnsIff` | internal/run/scheduler/dispatcher.go:57-73 | the object of an ended job, once gone, comes back in some continuation exactly when a dispatcher is past its check of the job |
| `ProtocolLeaks.RemovableIff` | internal/run/scheduler/projector.go:38-76 | the object of an ended job is removed in some continuation exactly when the job is uncollected and its run exists, or a collector has it on its list |
| `ProtocolLeaks.UncommittedLeaks` | internal/storage/memory/store.go:99-120 | a queued job left behind by a creation with a repeated key can be dispatched and end; its object then stays in every continuation |
| `ProtocolLeaks.StaleDispatchLeaks` | internal/run/scheduler/dispatcher.go:57-73 | from any state with a dispatcher past its check of an open job, cancelling and collecting lead to an object that stays in every continuation |
| `ProtocolLeaks.StaleLeakReachable` | internal/run/scheduler/dispatcher.go:57-73 | the empty system reaches such a state through one run of one job |
| `ProtocolLeaks.UncommittedLeakReachable` | internal/storage/memory/store.go:99-120 | and through one workflow with a repeated key |
| `Lexing.LexConcat` | internal/workflow/expression/lexer.go:65-177 | lexing a concatenation at a separator is lexing the parts |
| `Lexing.RenderLexes` | internal/workflow/expression/lexer.go:83-177 | every list of valid tokens, written with single blanks, lexes to that list; strings by doubling quotes |
| `Lexing.LexValid` | internal/workflow/expression/lexer.go:83-177 | lexing yields only tokens that can be written and read back |
| `Lexing.BlankIgnored` | internal/workflow/expression/lexer.go:86-93 | spaces, tabs and line breaks between tokens mean nothing |
| `Lexing.WordLexes` | internal/workflow/expression/lexer.go:101-106 | which texts are identifiers |
| `Lexing.NumeralLexes` | internal/workflow/expression/lexer.go:107-133 | which texts are numbers |
| `Lexing.CharacterFaults` | internal/workflow/expression/lexer.go:165-176 | what starts no token is an error there, by its kind |
| `Lexing.OpenFaults` | internal/workflow/expression/lexer.go:134-172 | so are a minus without digit and a quote that is never closed |
| `Scanner.Lexer.Advance` | internal/workflow/expression/lexer.go:52-62 | offset, line and column stay in step, line breaks included |
| `Scanner.Lexer.Next` | internal/workflow/expression/lexer.go:83-177 | skips blanks, then the token and offset the grammar of tokens says, or its fault at the token's start |
| `Scanner.Lexer.Tokens` | internal/workflow/expression/lexer.go:65-77 | the positioned tokens of the whole text, end marker last, or the first fault |
| `Scanner.ColumnCounts` | internal/workflow/expression/lexer.go:52-62 | the column counts from the last line break or the start |
| `Scanner.PositionsDiffer` | internal/workflow/expression/lexer.go:52-62 | line and column tell any two places of a text apart |
| `Scanner.ScanTokens` | internal/workflow/expression/lexer.go:65-177 | the positioned scan finds the tokens lexing finds, or its fault at the same place |
| `Scanner.ScanCovers` | internal/workflow/expression/lexer.go:65-177 | tokens start where they say, in order, with nothing but blanks between them up to the end of the text |
| `Scanner.CoversOnlyScan` | internal/workflow/expression/lexer.go:65-177 | no other list of positioned tokens covers the text |
| `ExpressionParser.Parser.Next` | internal/workflow/expression/parser.go:60-66 | never moves past the end marker |
| `ExpressionParser.Parser.Match` | internal/workflow/expression/parser.go:252-259 | consumes the token exactly when it is that punctuation |
| `ExpressionParser.Parser.Disjunction` | internal/workflow/expression/parser.go:89-102 | the loop builds what the grammar function of the remaining tokens builds, left-associative, and stops before the same token |
| `ExpressionParser.Parser.Conjunction` | internal/workflow/expression/parser.go:104-117 | as for disjunction, one level tighter |
| `ExpressionParser.Parser.Comparison` | internal/workflow/expression/parser.go:119-141 | as for conjunction, one level tighter, for all six operators |
| `ExpressionParser.Parser.Unary` | internal/workflow/expression/parser.go:143-152 | any number of negations before a postfix expression |
| `ExpressionParser.Parser.Postfix` | internal/workflow/expression/parser.go:154-192 | member and index chains, with the fault where a property name is missing |
| `ExpressionParser.Parser.Primary` | internal/workflow/expression/parser.go:194-250 | literals, names, calls and parentheses, and the fault for anything else |
| `ExpressionParser.ParseText` | internal/workflow/expression/parser.go:41-56 | terminates on every text with the parse, or with the fault at its place in the text |
| `Printing.RoundTrip` | internal/workflow/expression/parser.go:41-259 | printing any tree the parser can build with only the parentheses precedence requires, then lexing and parsing, gives that tree back |
| `ParserFacts.OrSound` | internal/workflow/expression/parser.go:89-102 | parsing valid tokens builds only trees that can be printed |
| `ParserFacts.Reprint` | internal/workflow/expression/parser.go:41-259 | whatever parses can be printed and parsed to the same tree again |
| `ParserFacts.OrExtends` | internal/workflow/expression/parser.go:89-102 | a parse up to the end is the same parse up to a closing parenthesis |
| `ParserBalance.OrShrinks` | internal/workflow/expression/parser.go:89-102 | and a parse that stops before a final closing parenthesis is the parse without it |
| `ParserBalance.OrLeaves` | internal/workflow/expression/parser.go:89-102 | every parse consumes balanced parentheses, no prefix closing more than it opened |
| `ParserCalls.CallsIffPair` | internal/workflow/expression/parser.go:89-250 | the tree of a parse calls one of some functions exactly when one of their names is followed by an opening parenthesis among the tokens |
| `Lookups.EvalIsPossible` | internal/workflow/expression/eval.go:26-164 | the evaluator with one fixed search order ends in one of the outcomes searches in any order allow |
| `Lookups.FindsOneIff` | internal/workflow/expression/eval.go:99-108 | a search through an object has one result exactly when the key is there as spelled or its variants agree |
| `Lookups.OneOutcome` | internal/workflow/expression/eval.go:26-164 | with contexts, and JSON read, whose objects hold no two variants of different value at any depth, an expression has one outcome whatever order searches take |
| `Lookups.OneOutcomeIff` | internal/workflow/expression/eval.go:26-164 | every expression without fromJSON has one outcome in an environment exactly when all contexts it can name are such |
| `Lookups.TwoPhase` | internal/workflow/expression/eval.go:26-164 | an expression that can evaluate to a value over such contexts evaluates to it, and to nothing else, in every environment that keeps the contexts, adds no job status and keeps the hasher, in whatever orders the two phases search |
| `Lookups.TwoSpellings` | internal/workflow/expression/eval.go:99-108 | two keys that differ in case only, and a third spelling: two evaluations in one environment can differ |
| `Operators.OrderMeaning` | internal/workflow/expression/eval.go:147-248 | the four orders go by number where one side is a number and both count as one, by lower-cased text between texts, and are false between anything else |
| `Operators.EvalOrder` | internal/workflow/expression/eval.go:133-164 | so does every comparison of evaluated expressions |
| `Operators.Trichotomy` | internal/workflow/expression/eval.go:142-248 | between comparable values exactly one of <, == and > holds, and the other three operators follow |
| `Operators.EqualMeaning` | internal/workflow/expression/eval.go:171-227 | which values are equal, kind by kind |
| `Operators.EqualSymmetric` | internal/workflow/expression/eval.go:171-227 | equality is symmetric and reflexive |
| `Operators.EqualNotTransitive` | internal/workflow/expression/eval.go:171-227 | and not transitive: '0' equals 0, 0 equals false, and '0' does not equal false |
| `Operators.TruthMeaning` | internal/workflow/expression/value.go:63-78 | exactly null, false, zero and the empty text are not truthy |
| `Operators.LogicMeaning` | internal/workflow/expression/eval.go:111-131 | && and || yield an operand and evaluate the right one only if it decides |
| `Operators.DeMorgan` | internal/workflow/expression/eval.go:111-131 | De Morgan, in truth and in errors |
| `Operators.NameMeaning` | internal/workflow/expression/eval.go:30-35 | a context is found under any spelling of its name, a missing one is an error |
| `Operators.ContextMeaning` | internal/workflow/expression/env.go:21-34 | a registered context answers to every spelling of its name, the others stay |
| `Operators.IndexMeaning` | internal/workflow/expression/eval.go:65-97 | an index picks the item at its whole part, null outside; scalars have no members |
| `Operators.ComparisonText` | internal/workflow/expression/parser.go:119-141 | a written comparison of two numbers says how the numbers stand |
| `Builtins.ShowMeaning` | internal/workflow/expression/value.go:82-115 | how values are displayed, objects in key order |
| `Builtins.CallMeaning` | internal/workflow/expression/eval.go:46-59 | a call applies the function to its arguments; an unknown one is refused whatever they are |
| `Builtins.ArgsMeaning` | internal/workflow/expression/eval.go:51-58 | the arguments have values exactly when each has one |
| `Builtins.StatusFunctionsMeaning` | internal/workflow/expression/functions.go:27-49 | which job status makes which status function true |
| `Builtins.ContainsMeaning` | internal/workflow/expression/functions.go:50-65 | an equal item in a list, or the second text in the first, case aside |
| `Builtins.StartsMeaning` | internal/workflow/expression/functions.go:66-71 | the second text at the start of the first, case aside |
| `Builtins.EndsMeaning` | internal/workflow/expression/functions.go:72-77 | the second text at the end of the first, case aside |
| `Builtins.SearchArity` | internal/workflow/expression/functions.go:125-132 | another number of arguments is an error |
| `Builtins.JoinMeaning` | internal/workflow/expression/functions.go:84-100 | the displayed items with the separator, a comma unless given, between them |
| `Builtins.FormatMeaning` | internal/workflow/expression/functions.go:78-83 | format() fills a template with the displayed arguments |
| `Builtins.HashMeaning` | internal/workflow/expression/hashfiles.go:38-60 | hashFiles() hands texts to the hasher, or fails for want of texts or hasher |
| `Builtins.JsonMeaning` | internal/workflow/expression/functions.go:101-122 | toJSON() writes its argument, fromJSON() reads its displayed text |
| `Builtins.KnownIff` | internal/workflow/expression/functions.go:34-122 | the known functions are exactly those that answer other than by refusal |
| `Builtins.SpellingFree` | internal/workflow/expression/eval.go:46-50 | names equal but for case are one function |
| `ConditionOutcomes.AnswerIsPossible` | internal/workflow/expression/conditions.go:17-39 | evaluating a condition with one fixed search order gives one of the possible answers |
| `ConditionOutcomes.AnswersOnce` | internal/workflow/expression/conditions.go:17-39 | over such contexts a condition, template or not, has one answer |
| `ConditionOutcomes.AbsentFree` | internal/workflow/expression/functions.go:27-49 | a text in which fromJSON does not occur in any spelling reads no JSON |
| `Evaluation.AddedStatusChangesMeaning` | internal/workflow/expression/functions.go:27-49 | adding a job status where there was none changes success() |
| `Formatting.FormatGitHub` | internal/workflow/expression/functions.go:135-167 | the index walk computes the template substitution, or fails where it does |
| `Formatting.EscapedFormats` | internal/workflow/expression/functions.go:135-167 | doubling the braces of any text and formatting it gives the text back |
| `Formatting.TemplateFormats` | internal/workflow/expression/functions.go:135-167 | a template of literals with doubled braces and holes {i} gives the literals and argument i for hole i, and fails exactly for a hole without argument |
| `Conditions.WrapParses` | internal/workflow/expression/conditions.go:17-39 | the rewritten text of every condition that parses means success() and that condition |
| `Conditions.RewrittenMeaning` | internal/workflow/expression/conditions.go:17-39 | a rewritten condition is true exactly when the job status is success and it is truthy; otherwise false without being evaluated |
| `Templates.TextKept` | internal/workflow/expression/interpolate.go:11-34 | text without an opening is kept |
| `Templates.PlaceFilled` | internal/workflow/expression/interpolate.go:11-34 | the first placeholder stands for the displayed value of its trimmed expression, or its fault, and the rest follows |
| `Templates.PlaceUnterminated` | internal/workflow/expression/interpolate.go:18-21 | one that is never closed is an error |
| `Templates.TextForms` | internal/workflow/expression/interpolate.go:11-34 | every text is of one of these three forms |
| `Templates.OnePlace` | internal/workflow/expression/conditions.go:22-36 | a condition that is one placeholder is decided by the text of its value |
| `Conditions.WrapKeepsMeaningIff` | internal/workflow/expression/conditions.go:17-39 | if no prefix of the text's tokens closes more parentheses than it opened, the wrapped text parses exactly when the text does, and to success() and just that tree |
| `Conditions.OutsideNeverParses` | internal/workflow/expression/conditions.go:17-39 | any other text is no expression on its own |
| `Marks.MarkIff` | internal/workflow/expression/conditions.go:41-49 | a mark occurs in a text that scans exactly when some token carries it |
| `StatusCalls.RewrittenIff` | internal/workflow/expression/conditions.go:41-49 | a text that scans is rewritten exactly when no token carries a mark: a status name, or needs or job, with the parenthesis or dot right behind it, or a string literal with a mark or a template opening inside |
| `StatusCalls.CallingRewrittenIff` | internal/workflow/expression/conditions.go:11-49 | a condition whose tree calls a status function is rewritten exactly when no token carries a mark; then every such call has blanks, and only blanks, before its parenthesis |
| `StatusCalls.NotCallingKeptIff` | internal/workflow/expression/conditions.go:11-49 | a condition whose tree calls none is left alone exactly when a string literal, a longer identifier, or a needs or job context carries a mark |
| `StatusCalls.CommentHoldsIff` | internal/workflow/expression/conditions.go:11-14 | so a parsed condition is rewritten just if it calls no status function, as documented, exactly when it has a status name before a parenthesis just if some token carries a mark |
| `StatusCalls.LiteralHoldsAlways` | internal/workflow/expression/conditions.go:41-49 | the string literal 'always(' calls nothing, is not rewritten and holds for every status |
| `StatusCalls.JobHoldsOnFailure` | internal/workflow/expression/conditions.go:41-49 | job.status calls nothing, is not rewritten and holds for a job whose status is failure |
| `Conditions.BlankCallNeverHolds` | internal/workflow/expression/conditions.go:41-49 | with a blank in between the text is rewritten although its tree calls the function: failure ( ) is false for every status |
| `Conditions.EscapeHoldsAlways` | internal/workflow/expression/conditions.go:17-39 | a text that is no expression but closes the rewrite's parenthesis evaluates to true whatever the status |
| `JobOrder.Sorter.Visit` | internal/workflow/compiler/expand.go:77-94 | lists the job last after jobs it depends on, keeps the walk's invariant, or proves a cycle through the named job |
| `JobOrder.TopoSort` | internal/workflow/compiler/expand.go:59-102 | succeeds exactly on unique ids, known needs and no cycle; then a permutation with every need earlier, in which nothing is moved ahead of the document order unless the next document job depends on it; each error names a real fault |
| `JobOrder.OrderNeedsSortable` | internal/workflow/compiler/expand.go:57-102 | any ordering with needs first proves the jobs sortable: the sort is complete |
| `JobOrder.OrderedAcyclic` | internal/workflow/compiler/expand.go:57-102 | an ordering with needs first leaves no cycle |
| `JobOrder.DocumentOrderKept` | internal/workflow/compiler/expand.go:95-100 | a document already in a valid order is returned as it is |
| `EditDistance.LevIsLeast` | internal/workflow/compiler/builtin.go:91-109 | the recurrence is the least number of single-character insertions, deletions and replacements |
| `EditDistance.LevSymmetric` | internal/workflow/compiler/builtin.go:91-109 | the distance is symmetric |
| `EditDistance.LevZero` | internal/workflow/compiler/builtin.go:91-109 | the distance is zero exactly between equal texts |
| `EditDistance.LevTriangle` | internal/workflow/compiler/builtin.go:91-109 | the distance obeys the triangle inequality |
| `EditDistance.Distance` | internal/workflow/compiler/builtin.go:91-109 | the two swapped rows compute the distance |
| `EditDistance.Nearest` | internal/workflow/compiler/builtin.go:81-89 | a registry name only within distance 2, and then a closest one, whatever order the registry is walked in |
| `MatrixExpansion.SplitRecoversIff` | internal/workflow/compiler/expand.go:45-49 | splitting "axis=value" at the first '=' recovers both exactly when the axis has no '=' |
| `MatrixExpansion.ComboCount` | internal/workflow/compiler/expand.go:29-38 | there are as many combinations as the product of the axis sizes |
| `MatrixExpansion.ComboAt` | internal/workflow/compiler/expand.go:29-38 | combination i takes on every axis the value at its mixed-radix digit |
| `MatrixExpansion.DigitsDiffer` | internal/workflow/compiler/expand.go:29-38 | different combinations differ on an axis: each occurs once |
| `MatrixExpansion.InstanceValues` | internal/workflow/compiler/expand.go:40-53 | with plain axis names the instance maps every axis to that value |
| `MatrixExpansion.InstanceName` | internal/workflow/compiler/expand.go:40-53 | and its key and display name show those values in axis order |
| `MatrixExpansion.KeysDistinctIff` | internal/workflow/compiler/expand.go:50-50 | with commas in the shown values of at most one axis, instance keys are pairwise distinct exactly when the values of every axis are |
| `MatrixExpansion.CommasCollide` | internal/workflow/compiler/expand.go:14-55 | with commas on two axes two instances of one expansion can share a key although all values are distinct |
| `MatrixExpansion.ExpandMatrix` | internal/workflow/compiler/expand.go:14-55 | fails exactly on an axis without values; otherwise lists the instances of all combinations of the axes in byte order |
| `Deferral.AfterStep` | internal/server/server.go:366-398 | projecting one decision adds it to the set of closed jobs: refreshing the run after each or once at the end is the same |
| `Undated.UndatedApply` | internal/storage/memory/store.go:328-358 | projecting at any time is projecting, up to the times recorded |
| `Undated.PassOrderFree` | internal/server/server.go:356-399 | up to start and finish times a pass gives one store, in whatever order it closes the decided jobs and whatever the clock shows at each |
| `Deferral.AfterKeeps` | internal/server/server.go:356-399 | a pass keeps the store invariant and loses nothing |
| `Deferral.SweepShrinks` | internal/server/server.go:344-404 | a pass that decides anything leaves fewer queued jobs |
| `Deferral.Settle` | internal/server/server.go:344-404 | repeated passes, each with answers of its own, end in a valid store in which some pass's answers leave nothing to decide |
| `Deferral.SettleGrows` | internal/server/server.go:344-404 | settling loses nothing and lowers no rank |
| `Deferral.SettledMeaning` | internal/server/server.go:366-398 | what is still queued under a deferred condition has an open need or a condition that holds |
| `DeferredLoop.Server.Decide` | internal/server/server.go:366-398 | the nested readiness loops and the evaluation decide as specified |
| `DeferredLoop.Server.PassRun` | internal/server/server.go:356-399 | one run's jobs are judged on the records read at the start and closed in turn, the clock read for each |
| `DeferredLoop.Server.Pass` | internal/server/server.go:345-402 | whatever order the runs are taken in and whatever the clock shows, a pass is the order-free one up to times, and reports progress exactly when it decided something |
| `DeferredLoop.Server.EvaluateDeferredConditions` | internal/server/server.go:344-404 | for any clock and any answers of each pass, the loop terminates in a valid store that is the settled one up to times, and loses nothing |
| `JobConditions.StatusSuccessIff` | internal/server/server.go:305-316 | success() holds exactly when no listed attempt of a needed job failed or was cancelled, skipped ones aside |
| `JobConditions.StatusIff` | internal/server/server.go:305-316 | the status is "failure" or "cancelled" exactly when the first failed or cancelled attempt of the last need that has one failed or was cancelled, "success" exactly when no need has one |
| `NeedsStatus.StatusSettles` | internal/server/server.go:344-404 | a job under a plain success(), failure() or cancelled() with all needs ended stays as it is if the status is the one asked for, and is skipped if not |
| `NeedsStatus.BadNeedRunsIff` | internal/server/server.go:305-316 | so under failure() it goes on exactly when the deciding attempt failed, under cancelled() exactly when it was cancelled |
| `ConditionContexts.NeedsResult` | internal/server/server.go:299-304 | needs.KEY.result is how the last listed attempt of the key ended |
| `ConditionContexts.JobStatusRead` | internal/server/server.go:317-323 | job.status is that status |
| `ConditionContexts.GithubFields` | internal/server/server.go:327-339 | github shows name, ref, sha and actor of the event |
| `ConditionContexts.RepositoryFields` | internal/server/server.go:327-339 | and the repository |
| `ConditionContexts.DeferredIff` | internal/server/server.go:285-293 | a condition that scans is deferred exactly when a token carries the mark of a status function or of needs |
| `ClaimedConditions.AnswerEnds` | internal/server/server.go:384-398 | a false condition skips the job, one without value fails it, a true one leaves it queued |
| `ClaimedConditions.HandedOutHolds` | internal/storage/memory/store.go:236-241 | from a settled store a job under a deferred condition whose needs have all ended is handed out only if the condition can be true |
| `ClaimedConditions.UndecidableStays` | internal/server/server.go:366-383 | any other condition is not looked at |
| `ClaimedConditions.EagerRunsAnyway` | internal/storage/memory/store.go:236-241 | for every condition without status function: a reachable run in which a need has failed, the condition with its implied success() is false, no pass changes that, and every claim hands the job out |
| `ClaimedConditions.OpenNeedRunsAnyway` | internal/storage/memory/store.go:236-241 | for every spelling of success(): the same while another need is still running |
| `NeedsCompared.StatusAgreesIff` | internal/server/server.go:305-316 | success() and the claim's dependency test agree exactly when a newest attempt failed or was cancelled, or an older one did just if a newest one is skipped or open or a need is unknown |
| `NeedsCompared.BadAttemptSkips` | internal/server/server.go:366-398 | a queued job under success() with a failed or cancelled attempt among its ended needs is skipped, however the newest attempts went |
| `NeedsCompared.RetriedNeedSkips` | internal/server/server.go:366-398 | a reachable run in which the need is ready for the claim, success() is false and the job is skipped: the need failed once and then succeeded |
| `NeedsCompared.PlainCallExists` | internal/server/server.go:288-293 | the call of a status function as written is such a condition |
| `JobConditions.NeedsLastWins` | internal/server/server.go:299-304 | needs shows for each key the result of its last listed record |
| `JobConditions.JobConditionEnv` | internal/server/server.go:298-324 | the loops build that environment; its status is "failure" or "cancelled" exactly by the attempt that decides |
| `JobConditions.DeferredNeverRewritten` | internal/server/server.go:285-293 | a deferred condition is never rewritten with success() |
| `JobConditions.DeferredLiteral` | internal/server/server.go:384-384 | without a template it is evaluated as written |
| `JobConditions.TrimEnds` | internal/workflow/expression/conditions.go:18-18 | a trimmed text has white space at neither end |
| `JobConditions.SettledConditions` | internal/server/server.go:344-404 | after settling, a queued job of an existing run with a deferred condition has a non-terminal need or a condition that can come out true in that state, and is true there if no spelling matches two jobs that ended differently |
| `JobConditions.SteadyIff` | internal/server/server.go:298-324 | the contexts of a job's condition hold no two variants of different value exactly when no spelling matches two jobs that ended differently |
| `JobConditions.ConditionsOnceIff` | internal/server/server.go:298-324 | so every expression without fromJSON has one outcome for the job exactly then |
| `JobConditions.KeysClearIff` | internal/workflow/syntax/parse.go:180-187 | job keys of which no third spelling matches two are exactly those for which this holds however the jobs end |
| `JobConditions.SettlesOnce` | internal/server/server.go:344-404 | with such job keys and no unsteady JSON any two sequences of possible answers settle in one store |
| `JobConditions.SettlesOnceUndated` | internal/server/server.go:344-404 | and the loop ends in one store up to times, whatever the clock shows and the searches meet first |
| `JobConditions.UndatedEnv` | internal/server/server.go:298-324 | a condition sees no start or finish time |
| `JobConditions.UsualVerdict` | internal/server/server.go:384-384 | the evaluator with one fixed search order is a possible one that reads no times |
| `JobConditions.TimelessTwin` | internal/server/server.go:366-398 | whatever a possible evaluator answers in a pass, a possible one that reads no times answers too |
| `NeedsSpelling.CanSayOf` | internal/server/server.go:298-304 | needs.KEY.result == 'success' can answer for every job whose key differs from KEY in case only, if none is spelled so |
| `NeedsSpelling.TwoSettledStores` | internal/server/server.go:344-404 | a reachable run with jobs build and BUILD, one succeeded and one failed, that two possible sequences of answers settle differently: the third job stays queued or is skipped |
| `NeedsSpelling.AsksExists` | internal/server/server.go:288-293 | needs.Build.result == 'success' is such a condition |
| `JobConditions.SettledSuccess` | internal/server/server.go:344-404 | under a plain success() such a job with all needs ended has no failed or cancelled attempt among them |
| `Globbing.MatchSegments` | internal/workflow/expression/hashfiles.go:138-160 | the loop with its recursion on ** is the search |
| `Globbing.MatchIff` | internal/workflow/expression/hashfiles.go:138-160 | the search succeeds exactly when every ** can stand for some run of segments so that the rest matches segment by segment |
| `Globbing.MalformedIff` | internal/workflow/expression/hashfiles.go:150-156 | a malformed pattern is reported exactly when plain matching reaches it before any ** |
| `Globbing.ConcatMatches` | internal/workflow/expression/hashfiles.go:138-160 | a concatenation of patterns matches exactly the paths that split accordingly |
| `Globbing.AdjacentCollapse` | internal/workflow/expression/hashfiles.go:138-160 | ** next to ** adds nothing, anywhere in a pattern |
| `Globbing.TrimSlashesMeaning` | internal/workflow/expression/hashfiles.go:132-136 | only slashes at the ends of a text are dropped, and all of them |
| `Globbing.MatchGlob` | internal/workflow/expression/hashfiles.go:132-136 | whole texts match by their segments, surrounding slashes aside |
| `FileCommands.ParseKVFile` | internal/runtime/executor/filecommand/filecommand.go:19-55 | the index loop with its nested heredoc loop computes the pairs, or the first error |
| `FileCommands.RoundTrip` | internal/runtime/executor/filecommand/filecommand.go:19-85 | parsing undoes writing, for any mix of heredoc and one-line entries with trimmed keys whose delimiter is no line of the value |
| `FileCommands.OneLine` | internal/runtime/executor/filecommand/filecommand.go:48-52 | a line with a name, = and any value is that pair, the name trimmed |
| `FileCommands.ErrorsTell` | internal/runtime/executor/filecommand/filecommand.go:26-52 | every error names a line, or an unclosed heredoc, that is at fault |
| `FileCommands.LinesRead` | internal/runtime/executor/filecommand/filecommand.go:78-85 | splitting into lines undoes ending each line |
| `FileCommands.Environment.Apply` | internal/runtime/executor/filecommand/filecommand.go:58-63 | the pairs are folded into the environment in order |
| `FileCommands.LastWins` | internal/runtime/executor/filecommand/filecommand.go:57-63 | each key gets its last value |
| `FileCommands.OthersStay` | internal/runtime/executor/filecommand/filecommand.go:57-63 | variables that are not named stay as they are |
| `Masking.MaskableIff` | internal/runtime/executor/mask/mask.go:48-52 | one registered value never shows in any output exactly when it neither starts nor ends with a star nor contains three |
| `Masking.MaskHides` | internal/runtime/executor/mask/mask.go:38-54 | no output contains a value that is maskable or contains a registered maskable one, for any set of values in any order |
| `Masking.HiddenWithoutCover` | internal/runtime/executor/mask/mask.go:47-52 | that condition is not necessary for several values: with "aa" registered before "*a", "*a" never shows |
| `Masking.MaskIdempotent` | internal/runtime/executor/mask/mask.go:38-54 | masking masked text changes nothing |
| `Masking.PlainIsMaskable` | internal/runtime/executor/mask/mask.go:38-54 | values without a star are maskable |
| `Masking.SortByLength` | internal/runtime/executor/mask/mask.go:47-47 | longer values first, equally long ones in registration order |
| `Masking.StableUnique` | internal/runtime/executor/mask/mask.go:47-47 | there is only one such order |
| `Masking.Masker.Add` | internal/runtime/executor/mask/mask.go:24-36 | appends the value unless it is empty or known |
| `Masking.Masker.Apply` | internal/runtime/executor/mask/mask.go:40-54 | replaces in that order; the result shows no covered value |
| `Executor.StepKeeps` | internal/runtime/executor/engine.go:117-440 | one step of the loop records one result for it, mirrored in the steps context, or halts where it must |
| `Executor.RunConserves` | internal/runtime/executor/engine.go:117-455 | a completed or failed run has one result per plan step in plan order, at most one failing, everything behind it skipped; a cancelled one has the results of the steps done, none failing |
| `ExecutorTrace.StepTold` | internal/runtime/executor/engine.go:117-440 | one step is skipped exactly for a false condition, passes exactly for a composite or a body that ended well, fails exactly for one that broke, forgiven exactly by continue-on-error, or stops the run for the reason it gives |
| `ExecutorTrace.RunTells` | internal/runtime/executor/engine.go:117-455 | over every run the results tell that of each step up to where it stopped and the rest is skipped; the job succeeds exactly when every step was reached and went on, and is cancelled exactly when one was reached by cancellation; each step sees the latest results before it |
| `ExecutorEnv.RunSees` | internal/runtime/executor/engine.go:137-160 | over every run each step sees in each variable its own setting, or what the engine, a command file of a body that ran, or the job wrote last; its path starts with the latest entries |
| `ExecutorEnv.NonBlankIs` | internal/runtime/executor/filecommand/filecommand.go:65-76 | the path entries of a file are its lines that are not blank |
| `Executor.StatusIsSuccess` | internal/runtime/executor/expr.go:81-88 | every step expression sees job.status success |
| `Executor.Engine.TakeStep` | internal/runtime/executor/engine.go:117-440 | the loop body updates environment, states, path entries and results as specified, on every branch |
| `Executor.Engine.FailJob` | internal/runtime/executor/engine.go:449-455 | the remaining steps are recorded as skipped and the failed job is reported once |
| `Executor.Engine.Run` | internal/runtime/executor/engine.go:117-445 | exactly one report, of the returned result, unless preparing the step files failed |

## Left out

- HTTP handlers, webhook decoding, GitHub clients, object storage links, metrics and tracing: plumbing over libraries.
- SQL transactions, row locks and claim leases of the PostgreSQL store: only its dependency classifier is modelled; they rest on database semantics.
- The Kubernetes reconciler: its status update precedes projection and is not retried, so no claim is made that every phase is projected.
- Liveness of jobs that need a matrix job: their dependency key never resolves, so only safety is stated.
- Cryptography, token review, id entropy and cron evaluation: external.
- YAML parsing and the JSON functions of expressions: foreign parsers; the JSON functions are inputs.
- Unicode case folding and white space, and floating-point rounding: text is ASCII in these respects and numbers are reals, so there is no NaN.
- DeferredLoop.Server.EvaluateDeferredConditions: the store does not fail; the answers of a pass are taken to read no start or finish time, which by `JobConditions.TimelessTwin` excludes no answer.
- Executor.Engine.Run: fetching secrets, rendering the job environment, exit codes and durations are not modelled; the returned result is read after the remaining steps have been recorded.
- Masking.MaskHides: for several values the condition is sufficient and, by `Masking.HiddenWithoutCover`, not necessary; it is exact for one value.
- JobConditions.SettlesOnce: the condition on job keys is exact for the results conditions can see (`JobConditions.KeysClearIff`); for the settled stores of one given run it is sufficient, since a run may ask for none of its ambiguous spellings.
- MatrixExpansion.KeysDistinctIff: says nothing about matrices with commas in the shown values of two or more axes.
- Error texts: errors are distinguished by kind and place, not by wording.
- Branch filters, schedules, secret scopes, check mapping and the other small helpers: they would only add easy members.
