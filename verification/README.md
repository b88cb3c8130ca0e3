# Verified model of Venat's durable execution and agent loop

Venat is an agent SDK. This project models the parts of it whose correctness is hardest to see
from the code and proves what they promise, for every input, every interleaving and every run:

- **Durable execution** (`durable_*.dfy`): the record behind a crash-safe execution, with leases,
  fencing tokens, compare-and-swap versions, effect attempts and replay tables. `DurableSpec` says
  what each command does to a record, `DurableBackend` has the same commands as methods that update
  the record's fields, `DurableCommands` says of each command when it is accepted and what it leaves
  and answers, from the record before and after alone, and `DurableRuns` and `DurableReplays` lift the invariants to any sequence of
  calls from any clients with any clock readings. A crash is a client that stops calling, a lost response is a call
  whose answer nobody uses.
- **Effects of an execution** (`durable_effects.dfy`, `durable_loop.dfy`): the interceptor that takes
  each tool call through the record, command by command, and the loop whose dispatches, before and
  after its crashes, are the effects started on the record.
- **The agent loop** (`loop_*.dfy`): turns, tool batches, guardrails, the four kinds of continuation,
  validation, resumption, repair, budgets and the conservation of usage and operation identities.
  Provider, tools, decider, observers and guardrails are fixed functions of what they are shown.
  `LoopSpec` is the specification, `LoopEngine` the loop as it updates its variables, `LoopOutcomes`
  says how turns and repairs end from what provider, tools, decider and guardrails say, and
  `LoopValidation` what a valid continuation is.
- **Streams** (`splitter.dfy`, `tool_calls.dfy`, `tool_call_streams.dfy`, `normalizer.dfy`, `retry.dfy`): separating
  `<think>` segments, assembling tool calls, normalising a response, retrying a stream.
- **History, usage, the child-agent token pool and the tick driver** (`history.dfy`, `usage.dfy`,
  `tokenpool.dfy`, `drive.dfy`), over `text.dfy` and `sorting.dfy`.

## What the proofs found

- Resuming from a continuation repeats the uninterrupted run, also after any number of crashes
  (`PassingResumes`, `ResumeEquivalence`, `CrashesAreHarmless`), with three exceptions:
  - With the iteration limit left to its default, a continuation waiting for output validation is
    resumed under the raw limit, and guardrails can see it (`FaithfulIff`, exact).
  - An answer without text and thinking is not appended, so resuming judges the message before it.
    This concerns one continuation only, the one in which that very answer waits for validation;
    whatever else the provider leaves unsaid, in that run or elsewhere, all others resume. For that
    one: a boundary observer lets the run get there only behind a plain assistant message, and the output
    is then repeated for all engines exactly when there is no guardrail and that message has text and
    no thinking (`EmptyAnswerIff`, exact; `EmptyAnswerDiffers` is a run that differs).
  - Messages that are not an assistant's but carry tool calls may name a later operation turn without
    being rejected, and then only resumption moves the turn counter past it (`ReadyFaithfulIff`,
    exact; `RetryNamesAhead` is a run in which a guardrail feeds back such a user message). Where only
    assistant messages carry calls this cannot happen: a history that names a later turn is rejected
    at every boundary (`NamedAheadRejected`), and resume equivalence needs no assumption about what
    retries name (`WellFormedResumes`, `WellFormedCrashes`).
- `ValidateContinuation` accepts a `model_complete` continuation that already holds some of the
  results; resuming it indexes an empty list (`PanicsIff`, exact; `HalfPanics` is such a continuation).
- With a boundary observer installed a structured-output repair never reaches the provider: it starts
  behind a finish decision, which no ready continuation may follow, and it ends the same whatever
  provider is put in (`ObservedRepairStops`).
- The step check before a dispatch counts the step just appended (agent/agent.go:478, 501), although
  the comment above it speaks of the count before (agent/agent.go:918-921). The model follows the
  code.
- A retrying stream that reports a failed reopening through an error event may reopen afterwards, so
  output can follow an error event (`DeliverySettles`, `ReopensUnlessSettled`, `ErrorThenOutput`).
- A stream that names a call by its id and by its index apart, before any event links the two, never
  assembles, although no event contradicts another (`AssemblesIff`, exact).
- Tool results are matched to calls in order: where every result names a call nothing is lost
  (`NamedExchangeIff`), but a result without an id takes the first call there is, and an exchange that
  could be matched is then refused (`UnnamedRefused`).
- A failed batch leaves its successes one tick ahead of the state, so that state may not start
  another drive unless nothing succeeded (`FoldedLegal`).

## Model

| member | source | states |
|---|---|---|
| `DurableBackend.ExecutionRecord.constructor` | durable/internal/testbackend/execution.go:39-71 | a new record is the specification's created record, with a fresh lease under token one, and satisfies the invariant |
| `DurableBackend.ExecutionRecord.Start` | durable/internal/testbackend/execution.go:27-107 | starting an existing execution replays the same claim, refuses a live lease or another spec, or claims afresh, and leaves exactly the specified record |
| `DurableBackend.ExecutionRecord.Resume` | durable/internal/testbackend/execution.go:109-154 | resuming replays, refuses or claims, and leaves exactly the specified record |
| `DurableBackend.ExecutionRecord.Renew` | durable/internal/testbackend/execution.go:173-187 | renewing extends the caller's own active lease and nothing else |
| `DurableBackend.ExecutionRecord.Save` | durable/internal/testbackend/execution.go:189-223 | a checkpoint is stored under the expected version, or the identical one is answered again |
| `DurableBackend.ExecutionRecord.Suspend` | durable/internal/testbackend/execution.go:225-254 | suspending gives up the lease, lapses its running attempts and records the answer for replay |
| `DurableBackend.ExecutionRecord.Finish` | durable/internal/testbackend/execution.go:256-307 | finishing needs the lease, the version and no uncertain attempt, and records the answer for replay |
| `DurableBackend.ExecutionRecord.Release` | durable/internal/testbackend/execution.go:309-333 | releasing needs the lease but not its freshness, lapses its running attempts and records the answer for replay |
| `DurableBackend.ExecutionRecord.StartAttempt` | durable/internal/testbackend/attempt.go:11-57 | an operation is executed, replayed, reported in progress or sent to reconciliation as its last attempt demands |
| `DurableBackend.ExecutionRecord.FinishAttempt` | durable/internal/testbackend/attempt.go:73-108 | a running attempt of this lease is settled once, and the same settlement is answered again |
| `DurableBackend.ExecutionRecord.MarkAttemptUnknown` | durable/internal/testbackend/attempt.go:110-142 | a running attempt of this lease becomes unknown once, and the same mark is answered again |
| `DurableBackend.ExecutionRecord.ReconcileAttempt` | durable/internal/testbackend/attempt.go:144-184 | an unknown attempt is resolved or abandoned under the expected version, and the same resolution is answered again |
| `DurableBackend.ExecutionRecord.ReconcileRunning` | durable/internal/testbackend/store.go:196-213 | exactly the running attempts of the token lapse to unknown, and the answer lists exactly them, sorted |
| `DurableBackend.ExecutionRecord.ReconcileForClaim` | durable/internal/testbackend/store.go:215-227 | every running attempt lapses and the answer lists exactly the unknown attempts, sorted |
| `DurableBackend.ExecutionRecord.HasUncertainAttempts` | durable/internal/testbackend/execution.go:335-344 | true exactly when some attempt is running or unknown |
| `DurableBackend.ExecutionRecord.AttemptByNumber` | durable/internal/testbackend/store.go:238-246 | finds the attempt with this number if the operation has one |
| `DurableInvariant.OnKeeps` | durable/internal/testbackend/store.go:17-65 | every command keeps the invariant: a present lease carries the next token, running attempts belong to it, logs are numbered with all but the last abandoned, versions follow the status, terminal records are quiet, replay tables agree |
| `DurableLaws.Fenced` | durable/internal/testbackend/store.go:121-134 | a command under an older token is refused as lease lost and changes nothing |
| `DurableLaws.NoStaleOwner` | durable/internal/testbackend/attempt.go:36-45 | whoever holds the lease never finds a running attempt owned by another lease, so that branch is unreachable |
| `DurableLaws.RejectedUnchanged` | durable/internal/testbackend/store.go:85-99 | a refused command changes nothing |
| `DurableLaws.TerminalAbsorbs` | durable/internal/testbackend/execution.go:281-304 | no command changes a terminal record, attempts included |
| `DurableLaws.Repeatable` | durable/internal/testbackend/execution.go:73-107 | repeating any accepted command except a renewal, while the lease it needs is active, gives the same answer and changes nothing |
| `DurableLaws.CreationRepeatable` | durable/internal/testbackend/execution.go:39-107 | repeating the call that created the execution gives the same answer and changes nothing |
| `DurableLaws.AttemptsMove` | durable/internal/testbackend/attempt.go:73-184 | settled and abandoned attempts never change, the others only along their status path with the version counting the moves, and an attempt becomes abandoned only by an accepted retry |
| `DurableLaws.AttemptCommandsOnly` | durable/internal/testbackend/attempt.go:11-184 | attempt commands touch nothing but the attempts |
| `DurableLaws.Counters` | durable/internal/testbackend/execution.go:88-106 | tokens, versions and checkpoint sequences only grow, and the version counts exactly the accepted checkpoints, suspensions and the finish |
| `DurableLaws.AllUnknownIs` | durable/internal/testbackend/store.go:229-236 | the reconcile list is strictly sorted by operation and number and holds exactly the unknown attempts |
| `DurableLaws.ClaimReportsUnknown` | durable/internal/testbackend/execution.go:88-106 | after every fresh claim nothing runs and the answer lists exactly all unknown attempts |
| `DurableLaws.ReleaseReportsInterrupted` | durable/internal/testbackend/execution.go:309-333 | a release answers with exactly the attempts it interrupted |
| `DurableRuns.RunKeeps` | durable/contract/contract.go:24-53 | in every run the invariant holds of every record after every call |
| `DurableRuns.AttemptPersists` | durable/internal/testbackend/attempt.go:20-57 | over any run an attempt keeps its identity and only moves forward along its status path |
| `DurableRuns.AbandonedByRetry` | durable/internal/testbackend/attempt.go:149-182 | if an attempt became abandoned, an accepted reconciliation of that very attempt decided to retry |
| `DurableRuns.ExecuteMeansRunning` | durable/internal/testbackend/attempt.go:16-57 | an execute answer means that attempt is the last one and runs under the caller's lease |
| `DurableRuns.NoSilentReexecution` | durable/internal/testbackend/attempt.go:16-57 | if one operation is executed under two tokens, an accepted reconciliation in between decided to retry the first attempt |
| `DurableRuns.TerminalForever` | durable/internal/testbackend/execution.go:281-304 | once terminal a record never changes again, whatever is called |
| `DurableRuns.FinishRepeatsForever` | durable/internal/testbackend/execution.go:256-307 | an accepted finish is answered the same for ever |
| `DurableRuns.ReleaseAndSuspendRepeat` | durable/internal/testbackend/execution.go:225-333 | an accepted release or suspend is answered the same until a newer token is issued |
| `DurableRuns.FinishAttemptRepeats` | durable/internal/testbackend/attempt.go:73-108 | an accepted settlement is answered the same as long as the caller holds the lease, whatever happened in between |
| `DurableRuns.MarkUnknownRepeats` | durable/internal/testbackend/attempt.go:110-142 | an accepted mark is answered the same as long as the caller holds the lease and the attempt has not been reconciled |
| `DurableRuns.ReconcileRepeats` | durable/internal/testbackend/attempt.go:144-184 | an accepted reconciliation is answered the same for ever, whenever no lease is active |
| `DurableRuns.ClaimRepeats` | durable/internal/testbackend/execution.go:73-154 | an accepted claim is answered the same as long as its own lease is the active one |
| `DurableLoop.EffectsExecuteOnce` | durable/interceptor.go:249-306 | with the loop's dispatches as the effects on the record, through all crashes: two driver executions of one operation are of one call, under different tokens an accepted retry of the first attempt lies between them, and none starts after one has recorded its outcome |
| `DurableLoop.NoInputConflict` | durable/internal/testbackend/attempt.go:27-30 | the record never refuses one of the loop's effects because its kind or input differs from an earlier one of its operation |
| `DurableLoop.BatchReplays` | durable/interceptor.go:275-284 | once the effects of a batch have finished, dispatching it again under any token runs no driver and returns each call's first outcome |
| `DurableLoop.SameEffectCall` | durable/interceptor.go:264-270 | effects of one operation are effects of one call |
| `DurableLoop.OneCallPerOperation` | agent/agent.go:474-476 | through all crashes and resumptions an operation name stands for one tool call, with one id, name and arguments |
| `DurableEffects.ExecuteTool` | durable/interceptor.go:249-306 | the driver runs exactly when the record says execute; its outcome is finished on the record, or marked unknown and refused when it is uncertain; a result given to the loop is held by the record, and a held result is given again without running the driver |
| `DurableEffects.RetryBetween` | durable/interceptor.go:264-289 | two executions of one operation under different tokens have an accepted retry of the first between them |
| `DurableEffects.FinishedReplays` | durable/interceptor.go:275-284 | once an effect has finished, every later accepted effect of its operation runs no driver and gives the loop the recorded outcome |
| `DurableEffects.FinishedSettles` | durable/interceptor.go:362-379 | a finished effect leaves its attempt settled with its encoded outcome |
| `DurableEffects.UncertainMarked` | durable/interceptor.go:301-305 | a driver that failed without a promise that nothing happened, or whose outcome cannot be encoded, leaves its attempt unknown |
| `DurableEffects.UnknownUntilResolved` | durable/internal/testbackend/attempt.go:144-184 | over every run an unknown attempt stays exactly as it is until an accepted resolution of that very attempt |
| `DurableEffects.UncertainReconciled` | durable/interceptor.go:264-305 | after such an uncertain effect every later accepted effect of its operation is told to reconcile that attempt and runs no driver, unless an accepted resolution of it came first |
| `DurableReplays.SettledReplays` | durable/internal/testbackend/attempt.go:27-33 | once an attempt is settled, every later accepted start of its operation, under any token, replays exactly it, and a start is accepted exactly when its caller holds the lease and its input is the same |
| `DurableReplays.StartAttemptRepeats` | durable/internal/testbackend/attempt.go:11-57 | an accepted start is answered the same exactly as long as its caller holds the lease and the attempt stays as it was |
| `DurableReplays.SaveRepeats` | durable/internal/testbackend/execution.go:189-223 | while its caller holds the lease an accepted checkpoint stays accepted, with the same version and checkpoint in the answer, exactly until a later one is stored |
| `DurableReplays.AttemptOrigin` | durable/internal/testbackend/attempt.go:20-57 | every attempt in the record was added by an accepted start of its operation, with that start's kind and input |
| `DurableReplays.OneTokenUnlessRetried` | durable/internal/testbackend/attempt.go:16-57 | no operation is executed under two tokens unless a retry of it was accepted |
| `DurableCommands.StartClaims` | durable/internal/testbackend/execution.go:73-107 | a start takes a new token exactly when the spec is the same, the execution is not over, no lease is live, and the claim id is new or the latest claim repeated; the lease is then the caller's under the next token, from now on for the time asked for, every running attempt is uncertain and nothing else changes; otherwise nothing changes at all |
| `DurableCommands.ResumeClaims` | durable/internal/testbackend/execution.go:109-154 | the same for a resumption, which names no spec |
| `DurableCommands.StartExcluded` | durable/internal/testbackend/execution.go:73-87 | while a lease is live a start changes nothing: only the holder's own claim is answered again, and a new claim id is refused as busy |
| `DurableCommands.ResumeExcluded` | durable/internal/testbackend/execution.go:109-134 | while a lease is live a resumption changes nothing: only the holder's own claim is answered again, and a new claim id is refused as busy |
| `DurableCommands.LeasesExclusive` | durable/internal/testbackend/execution.go:85-87 | over every run a token is superseded only by an accepted claim made when no lease was live at that call's time, and that claim took the next token for its caller |
| `DurableCommands.TokenStep` | durable/internal/testbackend/execution.go:73-154 | one call leaves the token as it is, unless it is an accepted claim made when no lease was live, which takes the next token for its caller |
| `DurableCommands.OverAnswered` | durable/internal/testbackend/execution.go:29-37 | a claim on an execution that is over is answered with it as it stands |
| `DurableCommands.CreatedAsAsked` | durable/internal/testbackend/execution.go:39-71 | the first start creates the execution as asked for, under the first token, beside untouched others |
| `DurableCommands.RenewExact` | durable/internal/testbackend/execution.go:173-187 | exactly the holder of a live lease renews; the lease then runs from now for the time asked for and nothing else changes |
| `DurableCommands.SaveExact` | durable/internal/testbackend/execution.go:189-223 | exactly the holder saves, a newer checkpoint under the expected version or the one already stored; the newer one is stored just as sent, the version rises by one and nothing else changes |
| `DurableCommands.CheckpointStep` | durable/internal/testbackend/execution.go:189-223 | no command but a save that stores changes the checkpoint |
| `DurableCommands.CheckpointIsLastSaved` | durable/internal/testbackend/execution.go:189-223 | over every run a record's checkpoint is exactly the one the last save that stored any sent, and there is none without such a save |
| `DurableCommands.ClaimCarriesCheckpoint` | durable/internal/testbackend/execution.go:66-107 | the answer to a fresh claim carries the record as it now is, with the checkpoint it had |
| `DurableCommands.SuspendExact` | durable/internal/testbackend/execution.go:225-254 | when a suspension acts and when it is answered again; acting ends the lease, interrupts the holder's attempts, raises the version and marks the execution suspended, and changes nothing else |
| `DurableCommands.ReleaseExact` | durable/internal/testbackend/execution.go:309-333 | when a release acts and when it is answered again; acting ends the lease and interrupts the holder's attempts, and changes nothing else |
| `DurableCommands.FinishExact` | durable/internal/testbackend/execution.go:256-307 | when a finish acts and when it is answered again; acting records the result sent, as failed exactly when it says so, ends the lease, raises the version, and changes nothing else |
| `DurableCommands.StartAttemptExact` | durable/internal/testbackend/attempt.go:11-57 | when a start of an attempt is accepted, when it adds an attempt and which, and what it answers otherwise |
| `DurableCommands.FinishAttemptExact` | durable/internal/testbackend/attempt.go:73-108 | exactly the holder settles its own running attempt, with what was sent, as failed exactly when there is a failure; the same settlement is answered again |
| `DurableCommands.MarkUnknownExact` | durable/internal/testbackend/attempt.go:110-142 | exactly the holder marks its own running attempt unknown, with what was sent; the same mark is answered again |
| `DurableCommands.ReconcileExactly` | durable/internal/testbackend/attempt.go:144-184 | an attempt is resolved exactly while no lease is live and it is unknown under the expected version, and becomes what the resolution says |
| `DurableCommands.RunAuthentic` | durable/internal/testbackend/execution.go:15-24 | over every run the spec, the checkpoint and the result on record have the hashes they stand beside |
| `DurableLoop.DispatchedInHistory` | agent/agent.go:474-514 | every call a run dispatches is in the history it ends with, under its own slot |
| `DurableEffects.NamesDiffer` | durable/reconcile.go:150-160 | different slots have different names, and no tool call is named like a model call |
| `LoopResume.PassingResumes` | agent/resume.go:97-186 | from whatever continuation a run built, in each of the four phases, resuming ends with the run's own output, if before every turn of the run each turn named in the history had passed and, at validating_output, the answer that waits there says something |
| `LoopResume.ResumeEquivalence` | agent/resume.go:97-186 | the same when what guardrails feed back names no operation |
| `LoopResume.ResumeModelComplete` | agent/resume.go:112-136 | at model_complete the same tool step runs again and the loop goes on to the same output |
| `LoopResume.ResumeToolsComplete` | agent/resume.go:138-150 | at tools_complete the next turn is entered, or the finished output rebuilt |
| `LoopResume.ResumeValidatingOutput` | agent/resume.go:152-171 | at validating_output the same answer is judged again and the run ends the same |
| `LoopResume.TurnPasses` | agent/agent.go:687-698 | after each turn every operation turn the history names has passed |
| `LoopCrashes.ResumeRetraces` | agent/resume.go:97-171 | a resumed run hands out only continuations, and dispatches only batches, that the uninterrupted run does |
| `LoopCrashes.CrashesRetrace` | agent/resume.go:97-171 | the same for every resumption of any chain of crashes |
| `LoopCrashes.CrashesAreHarmless` | agent/resume.go:97-171 | after any number of crashes and resumptions, from continuations that hold no empty answer, the last one still ends with the uninterrupted run's output |
| `LoopTranscripts.WellFormedResumes` | agent/resume.go:97-186 | where only assistant messages carry calls, in the history and in what guardrails feed back, resuming repeats every run, whatever turns are named, unless an empty answer waits in the continuation |
| `LoopTranscripts.WellFormedCrashes` | agent/resume.go:97-171 | the same for any number of crashes |
| `LoopTranscripts.AnalyzedTop` | agent/continuation.go:436-491 | an accepted transcript in which only assistants call names no turn above the one the analysis reports |
| `LoopTranscripts.ValidatedPasses` | agent/continuation.go:287-305 | so every validated continuation over one is ahead of every turn it names |
| `LoopTranscripts.NamedAheadRejected` | agent/continuation.go:301-303 | a history in which an assistant names a later turn is rejected at every boundary |
| `LoopTranscripts.NamedAheadAccepted` | agent/continuation.go:461-463 | a user message that names a later turn passes validation and leaves the turn counter behind it |
| `LoopExceptions.ConfiguredRunResumes` | agent/resume.go:23-95 | whatever run a caller started, resuming any continuation it handed out, with the same configuration, ends with the run's own output, unless a guardrail can see the default limit or an empty answer waits in the continuation |
| `LoopExceptions.ResumeIgnoresDefault` | agent/resume.go:40-79 | resuming is the same with the raw and the defaulted limit, unless a guardrail can see it while output is validated |
| `LoopExceptions.FaithfulIff` | agent/resume.go:152-171 | resumption repeats every run that passes its turns, from every continuation of a phase that holds no empty answer, with so many guardrails, exactly when the limit is explicit, the phase is another, or there is no guardrail |
| `LoopExceptions.DefaultSeen` | agent/agent.go:531-541 | for every implicit limit and guardrail count there is a run whose accepted answer is refused on resumption |
| `LoopExceptions.EmptyAnswerIff` | agent/agent.go:547-608 | a run with an empty answer resumes to its own output, for all engines with so many guardrails, exactly when there is no guardrail and the message before it has text and no thinking |
| `LoopExceptions.EmptyAnswerResumes` | agent/agent.go:993-1000 | under an observer the message before an empty answer is a plain assistant message, and without guardrails each single resumption ends the same exactly when it has text and no thinking |
| `LoopExceptions.EmptyAnswerDiffers` | agent/resume.go:152-171 | a run with an empty answer whose every resumption ends differently |
| `LoopExceptions.FreshReachesCheck` | agent/continuation.go:162-170 | in a fresh run any sound empty answer behind a plain assistant message reaches the output check |
| `LoopExceptions.ReadyFaithfulIff` | agent/agent.go:226-242 | a ready continuation resumes to the same output for all engines exactly when its history names no turn still to come |
| `LoopExceptions.RetryTurnsPassed` | agent/agent.go:981-991 | a guardrail retry leaves such a history exactly when its messages name no turn still to come |
| `LoopExceptions.RetryNamesAhead` | agent/agent.go:981-991 | a run in which a retry's user message names a later turn, and whose ready continuation resumes to another output |
| `LoopExceptions.PanicsIff` | agent/resume.go:112-124 | resuming a validated continuation panics exactly at model_complete when the last message has no calls |
| `LoopExceptions.HalfAnsweredPanics` | agent/continuation.go:147-173 | adding the first of several results to a valid model_complete continuation keeps it valid and makes it panic |
| `LoopExceptions.HalfPanics` | agent/resume.go:112-124 | a validated continuation with two calls and one result, whose resumption panics |
| `LoopOutcomes.ToolTurnDecided` | agent/agent.go:610-664 | a tool turn whose batch succeeded and whose observers accept ends the run well exactly when the tools are terminal or the decider says finish, breaks it exactly when they are not and the decider says fail, and goes on otherwise; messages, usage, traces, counts, the last step's decision and the stop reason are stated outright |
| `LoopOutcomes.ToolTurnShows` | agent/agent.go:474-529 | such a turn shows the ready boundary, the open step, then dispatches the named calls with the tokens spent before them, then shows the step with its traces and decision, in this order |
| `LoopOutcomes.ToolTurnWithheld` | agent/agent.go:492-508 | a batch beyond a budget, or unmetered under a token limit, aborts the run with its step failed and nothing dispatched |
| `LoopOutcomes.ToolTurnUnprepared` | agent/agent.go:510-513 | tools that cannot be prepared break the run with nothing dispatched |
| `LoopOutcomes.BatchFailed` | agent/agent.go:514-522 | a failed batch breaks the run with its results and child usage kept |
| `LoopOutcomes.DefaultTurns` | agent/agent.go:531-545 | a limit left unset is a limit of twelve turns |
| `LoopOutcomes.OutOfTurns` | agent/agent.go:353-361 | past the iteration limit the run ends well as it stands |
| `LoopOutcomes.OutOfBudget` | agent/agent.go:741-755 | out of budget the run is aborted as it stands before anything is asked |
| `LoopOutcomes.ProviderFailed` | agent/agent.go:372-399 | a failed provider call breaks the run and keeps what was said and charged |
| `LoopOutcomes.AnswerTurnJudged` | agent/agent.go:547-608 | an answer ends the run exactly when the guardrails pass it on one to the next, with what the last one passed on and the provider's stop reason; the run goes on exactly when a guardrail asks for a retry of what those before it passed on, with the retry's messages behind its context; any other answer breaks it |
| `LoopOutcomes.AnswerTurnShows` | agent/agent.go:559-569 | an answering turn shows the ready boundary and then the answer, before it is judged |
| `LoopOutcomes.AnswerUnmetered` | agent/agent.go:570-577 | under a token limit an answer that reports no tokens aborts the run |
| `LoopOutcomes.RetriedIff` | agent/agent.go:1030-1082 | an answer is sent back exactly when a guardrail asks for a retry, with something to say and turns left, of what those before it passed on |
| `LoopOutcomes.ObserversHeeded` | agent/agent.go:667-733 | every turn first shows the ready boundary; a boundary that is not agreed to or does not validate is the last thing shown and breaks the run as it stands there; a turn goes on or ends well only if the step observer agreed to its last step |
| `LoopOutcomes.NextTurnLeast` | agent/agent.go:687-698 | the next operation turn is the least number above every turn the history names |
| `LoopOutcomes.LastThinkingTold` | agent/resume.go:219-226 | the thinking carried on is that of the last assistant message, if there is one |
| `LoopOutcomes.MalformedRefused` | agent/resume.go:23-26 | resuming a continuation that is not well formed shows and dispatches nothing and hands back what it holds |
| `LoopOutcomes.FailedStepStays` | agent/resume.go:138-150 | a step that the decider failed stays failed: resuming from the boundary behind it breaks with the run's own output but for the thinking |
| `LoopOutcomes.RepairTold` | agent/engine.go:131-172 | each repair attempt runs from the invalid output before it with its complaint and everything spent; repairing stops exactly at a valid output, an exhausted budget, a broken run or the last attempt |
| `LoopOutcomes.ExecutionTold` | agent/engine.go:108-172 | a whole execution is its first run and such repairs of it, and what comes out as valid has passed the check |
| `LoopBoundary.FreshReady` | agent/continuation.go:123-145 | a fresh run over a transcript without an open exchange is a valid ready continuation |
| `LoopValidation.ValidIff` | agent/continuation.go:123-145 | validation accepts exactly the well-formed continuations, said without walking them: calls and results are paired, the steps are the last assistants' with their own slots and traces, counts and tokens add up, and the phase fits |
| `LoopValidation.AnalyzeIff` | agent/continuation.go:436-491 | the analysis accepts exactly the transcripts in which every caller is followed by its answers in order and every tool message is due to a caller, and reports the calls that wait, where the assistants are and the highest turn named |
| `LoopValidation.TotalsIff` | agent/continuation.go:175-285 | the walk over the steps accepts exactly when each step fits by itself, and its totals are what the steps have on record |
| `LoopValidation.PairedNext` | agent/continuation.go:440-491 | one more message keeps the pairing exactly when it answers the waiting caller or, when none waits, is no tool message and calls well |
| `LoopBoundary.OpenValid` | agent/agent.go:474-486 | the model_complete continuation built after a ready state validates |
| `LoopBoundary.ToolsValid` | agent/agent.go:507-529 | the tools_complete continuation, child usage and tool calls charged, validates, and so does the ready one after it |
| `LoopBoundary.AnswerValid` | agent/agent.go:559-570 | the validating_output continuation validates, and so does the ready one after a retry that keeps the answer |
| `LoopBoundary.TurnValid` | agent/agent.go:275-352 | a turn from a ready state builds only valid continuations and leaves a ready state |
| `LoopBoundary.BoundariesValid` | agent/agent.go:700-733 | every continuation that a whole run builds passes validation |
| `LoopBoundary.FreshBoundariesValid` | agent/agent.go:226-361 | the same for every run started over a complete transcript, whatever turn number the caller gave |
| `LoopBoundary.DroppedAnswerRejected` | agent/continuation.go:179-181 | when each assistant message of the transcript came from a step, a retry that drops the rejected answer and adds no assistant or tool message leaves a history that is rejected in every phase |
| `LoopBudget.ToolStepWithin` | agent/agent.go:492-514 | a batch is dispatched only within the token, step and tool-call budgets, and its calls are exactly what is charged |
| `LoopBudget.TurnWithin` | agent/agent.go:275-352 | a turn keeps every limit and charges exactly the calls it dispatched |
| `LoopBudget.RunWithin` | agent/agent.go:791-812 | over a run dispatched calls never exceed the maximum, steps exceed neither their maximum nor a finite iteration limit, and nothing is dispatched once the tokens are spent |
| `LoopBudget.ExecutionWithin` | agent/engine.go:131-166 | the same over a run and all its repairs together |
| `LoopBudget.ObservedRepairStops` | agent/engine.go:131-166 | with a boundary observer a repair shows its first boundary at most, changes neither usage nor steps, breaks or ends at the iteration limit, and does the same whatever the provider is |
| `LoopBudget.RunFinishes` | agent/agent.go:275-361 | a run that ends well ends on a finish decision or at its iteration limit |
| `LoopLedger.UsageConserved` | agent/agent.go:306-352 | over a run that ends well the history and the steps are only added to, and the usage grows by exactly the total of what the new model calls and the child agents reported |
| `LoopLedger.TurnExtends` | agent/agent.go:306-352 | the same for one turn |
| `LoopLedger.ToolStepLedger` | agent/agent.go:507-529 | a tool step adds the named reply, one message for each result, one step and the children's usage |
| `LoopLedger.OperationsUnique` | agent/agent.go:474-476 | over a run that ends well no two tool calls in the history name the same operation |
| `LoopLedger.SlotBelow` | agent/agent.go:687-698 | every operation a history names lies below its next turn |
| `LoopLedger.AcceptedIff` | agent/agent.go:1030-1082 | an answer is accepted exactly when every guardrail in turn passes on, as it is or replaced, what the one before it passed on |
| `LoopLedger.GuardPlain` | agent/output_guardrail.go:169-204 | an accepted answer calls no tools |
| `LoopEngine.CheckCalls` | agent/continuation.go:467-485 | accepts exactly calls that are named, have distinct ids and sit in their own slots, and finds the greatest turn they name |
| `LoopEngine.AnalyzeTranscript` | agent/continuation.go:436-491 | one pass finds exactly the specified analysis, or rejects where it does |
| `LoopEngine.ValidateSteps` | agent/continuation.go:175-204 | one pass over the steps finds exactly the specified totals, or rejects where it does |
| `LoopEngine.Validate` | agent/continuation.go:123-145 | accepts exactly the continuations that fit transcript, steps, totals and phase |
| `LoopEngine.NextOperationTurn` | agent/agent.go:687-698 | the least turn above every one the messages name |
| `LoopEngine.ContinuationThinking` | agent/resume.go:219-226 | the thinking of the last assistant message |
| `LoopEngine.NameCalls` | agent/agent.go:474-476 | every call gets its turn and position, and nothing else changes |
| `LoopEngine.ToolCallTraces` | agent/agent.go:1007-1028 | one trace for each call, paired with its result by position |
| `LoopEngine.AgentLoop.ObserveBoundary` | agent/agent.go:700-733 | hands out the continuation of the present state and accepts it exactly when it validates and the observer agrees |
| `LoopEngine.AgentLoop.FailBudget` | agent/agent.go:492-508 | marks the last step failed, shows it, and returns the aborted output |
| `LoopEngine.AgentLoop.FinalizeToolStep` | agent/agent.go:610-664 | finishes, fails or continues the tool step as specified |
| `LoopEngine.AgentLoop.AppendToolResults` | agent/agent.go:1342-1354 | appends one message for each result, in order |
| `LoopEngine.AgentLoop.RunToolStep` | agent/agent.go:462-529 | runs a reply's tool calls as specified, with the same events in the same order |
| `LoopEngine.AgentLoop.ApplyOutputGuardrails` | agent/agent.go:1030-1082 | runs the guardrails in order over the candidate and returns the specified verdict |
| `LoopEngine.AgentLoop.FinalizeNoToolStep` | agent/agent.go:547-608 | accepts, replaces, retries or refuses an answer as specified |
| `LoopEngine.AgentLoop.HandleTurnFailure` | agent/agent.go:372-399 | keeps the trace of a failed provider call |
| `LoopEngine.AgentLoop.RunTurn` | agent/agent.go:275-352 | one pass of the loop body is one specified turn |
| `LoopEngine.AgentLoop.Loop` | agent/agent.go:275-361 | the loop builds the specified events and ends with the specified output |
| `LoopEngine.AgentLoop.RunAll` | agent/agent.go:226-361 | the entry point fills in the default limit, moves the turn number past the history, and loops |
| `LoopEngine.ResumeModelComplete` | agent/resume.go:112-136 | pops the open message and step, repeats the tool step and loops on |
| `LoopEngine.ResumeValidatingOutput` | agent/resume.go:152-171 | pops the answer and its step, judges it again and loops on |
| `LoopEngine.ResumeLoop` | agent/resume.go:97-110 | validates and resumes by phase, as specified |
| `LoopEngine.RepairStructuredOutput` | agent/engine.go:131-172 | repairs until valid, out of budget, failed or out of attempts, as specified |
| `ThinkTags.StreamingEqualsBatch` | provider/openai/stream.go:165-211 | for every chunking the stream emits exactly the one-shot split, and holds back less than the tag it looks for |
| `ThinkTags.SplitExplained` | provider/openai/stream.go:165-211 | the split cuts the input at the tags, text and thinking in turn, keeps exactly what lies between, and no segment holds the tag that would end it |
| `ThinkTags.ChunkingIrrelevant` | provider/openai/stream.go:165-211 | two cuts of one string emit the same |
| `ThinkTags.AdvanceSplits` | provider/openai/stream.go:165-196 | whatever follows, what a chunk emits is a start of the split and the buffer is all the rest depends on |
| `ThinkTags.NothingEarly` | provider/openai/stream.go:213-226 | no tag can begin inside the part that is emitted early |
| `ThinkTags.SplitConserves` | provider/openai/stream.go:148-196 | the pieces and the removed tags make up the input |
| `ThinkTags.SafeEmitLength` | provider/openai/stream.go:213-226 | finds the length before the longest proper start of the tag that ends the buffer |
| `ThinkTags.ThinkSplitter.Scan` | provider/openai/stream.go:165-196 | empties the buffer of every complete segment and of what is safe |
| `ThinkTags.ThinkSplitter.Process` | provider/openai/stream.go:165-196 | keeps the splitter equal to the fold of the chunks received |
| `ThinkTags.ThinkSplitter.Flush` | provider/openai/stream.go:198-211 | with the flush, all that was emitted is the split of all that was received |
| `ToolCallAssembly.CallsExplained` | provider/conformance.go:197-272 | when assembly succeeds, ids are non-blank and distinct, each index has one id, every event belongs to one call that no event contradicts, at most one event of a call is complete, a call's name is the last one given, its arguments are those of its last complete event that has any followed by every fragment after it in arrival order, and the calls come in the order of their first events |
| `ToolCallAssembly.MergedComes` | provider/conformance.go:197-240 | the merge of any events of one call has the last name given, spells the arguments in arrival order from the last complete event on, and carries only an id and an index that were named |
| `ToolCallAssembly.OwnAre` | provider/conformance.go:283-351 | a call's own events are exactly those that belong to it, each once and in arrival order |
| `ToolCallStreams.AssemblesIff` | provider/conformance.go:197-351 | a stream assembles exactly when it can be told apart into at most 1024 calls: every event is one call's and contradicts none, no id has two complete events, ids are not blank, whatever each call spells is nothing or valid, and an index is linked to its id before the two are used apart |
| `ToolCallStreams.LinkedEvents` | provider/conformance.go:291-335 | when assembly succeeds, an event that names a call by its id alone and one that names it by its index alone have an event naming both before the later of them |
| `ToolCallStreams.CollectTold` | provider/conformance.go:283-351 | a stream that can be told apart never meets a conflict or a duplicate, and its tables bind exactly the names given |
| `ToolCallAssembly.NamelessFails` | provider/conformance.go:325-335 | an event with neither id nor index always makes assembly fail |
| `ToolCallAssembly.Undisturbed` | provider/conformance.go:283-351 | calls interleaved with others of disjoint ids and indexes come out as they would alone |
| `ToolCallAssembly.Together` | provider/conformance.go:283-351 | two such groups that assemble alone assemble together exactly when their calls are within the limit, and the joint calls interleave theirs |
| `ToolCallAssembly.ApplyKeeps` | provider/conformance.go:197-240 | each event touches one builder, keeps the tables consistent, never rebinds an id or index, and without conflict is merged where its id and index are bound |
| `ToolCallAssembly.FinalizeOk` | provider/conformance.go:242-272 | finishing succeeds exactly when every builder is usable and they are at most 1024, and gives their calls in arrival order |
| `ResponseNormalizer.ToolCallAssembler.EnsureBuilder` | provider/conformance.go:283-351 | finds or files the builder and updates the binding tables as specified |
| `ResponseNormalizer.ToolCallAssembler.ApplyCall` | provider/conformance.go:197-218 | records a complete call, or refuses the second one for a builder |
| `ResponseNormalizer.ToolCallAssembler.ApplyDelta` | provider/conformance.go:221-238 | merges a fragment into its builder |
| `ResponseNormalizer.ToolCallAssembler.FinalizeCalls` | provider/conformance.go:242-272 | returns the calls in arrival order, or the first error |
| `ResponseNormalizer.ValidateTerminalSequence` | provider/conformance.go:123-141 | accepts exactly streams whose only terminal event is the last, and says when it is missing |
| `ResponseNormalizer.ContentConserves` | provider/conformance.go:163-194 | the content parts carry the text and the thinking in order, with neighbours of one kind joined |
| `ResponseNormalizer.ContentExact` | provider/conformance.go:143-194 | the content is exactly what the events said, character by character under its kind, with every redacted payload in its place, and the last signature is on the last part that has one |
| `ResponseNormalizer.SpendingTold` | provider/conformance.go:76-103 | of a well-terminated stream the usage is the final report if there is one and the total of all reports otherwise, and the stop reason is the one the last event gives |
| `ResponseNormalizer.Normalize` | provider/conformance.go:55-121 | accepts exactly well-terminated, error-free streams whose calls assemble, and every part of the response is what the events say: text, thinking, signature, redacted thinking, content, calls, usage and stop reason |
| `RetryingStreams.RetrySafety` | provider/retry_stream.go:74-145 | over every sequence of calls opens are retries plus one and at most the maximum plus one, retries are exactly the requests granted, and what is delivered as output is the output of one stream, event by event and none lost, save a final event that came with an error |
| `RetryingStreams.OutputFromOneStream` | provider/retry_stream.go:103-145 | every delivery tells the item at its source and position: output as it was received, a failure exactly when there is one; the items taken from the stream in use were delivered, each once and in order; and all output came from that stream, which is settled |
| `RetryingStreams.RetriesGranted` | provider/retry_stream.go:116-145 | over every sequence of calls the stream is retried exactly as often as a request was granted |
| `RetryingStreams.CancelledStops` | provider/retry_stream.go:118-120 | a cancelled failure before output asks for nothing, reopens nothing and is reported at once |
| `RetryingStreams.OpeningStops` | provider/retry_stream.go:201-222 | opening goes on exactly while opens are refused, not cancelled, and granted a retry with retries left, and fails with what stopped it |
| `RetryingStreams.NeverReopened` | provider/retry_stream.go:103-191 | a settled stream is never reopened |
| `RetryingStreams.DeliverySettles` | provider/retry_stream.go:147-191 | output settles the stream, and an error event does unless it reports a reopening that failed with retries left |
| `RetryingStreams.ReopensUnlessSettled` | provider/retry_stream.go:103-145 | some continuation of the world reopens the stream exactly when it is not settled |
| `RetryingStreams.ErrorThenOutput` | provider/retry_stream.go:134-141 | a run that delivers an error event and then output of another stream |
| `RetryingStreams.Open` | provider/retry_stream.go:201-222 | every retry is one more open, never beyond the maximum, and success is the last stream opened |
| `RetryingStreams.RetryingStream.ClassifyReceived` | provider/retry_stream.go:147-191 | sorts an item into output, end, failure after output or something to retry, as specified |
| `RetryingStreams.RetryingStream.OpenWithRetry` | provider/retry_stream.go:201-222 | opens as specified |
| `RetryingStreams.RetryingStream.RetryItem` | provider/retry_stream.go:116-143 | asks for a retry and reopens as specified |
| `RetryingStreams.RetryingStream.Recv` | provider/retry_stream.go:103-145 | answers and moves as specified, keeping the counts |
| `RetryingStreams.RetryingStream.CloseStream` | provider/retry_stream.go:193-199 | closes, and changes nothing else |
| `RetryingStreams.Consume` | provider/retry_stream.go:74-199 | any receives and closes on an opened stream deliver the specified history, every delivery tells its item, and all output is from one stream with none lost |
| `RetryingStreams.OpenRetryingStream` | provider/retry_stream.go:74-82 | yields a stream exactly when opening succeeds, in the first state |
| `History.ExchangeMatches` | message/history.go:14-76 | acceptance implies a one-to-one matching of calls and results |
| `History.NamedExchangeIff` | message/history.go:14-76 | where every result names a call, an exchange is accepted exactly when calls and results match one to one: taking them in order loses nothing |
| `History.UnnamedRefused` | message/history.go:140-159 | with a result that names no call, an exchange that could be matched may be refused |
| `History.BoundarySplits` | message/history.go:78-110 | cutting a complete history at a turn boundary leaves two complete histories |
| `History.SafeCutSplits` | message/history.go:78-110 | every cut the code chooses leaves two complete histories |
| `History.UnmatchedCallIndex` | message/history.go:140-159 | finds the call a result answers: the one with its id, else the first still unanswered that may take it |
| `History.ValidateCompleteTurns` | message/history.go:14-76 | accepts exactly the complete histories |
| `History.CompleteTurnBoundary` | message/history.go:78-110 | returns the start of the final exchange when the clamped index falls inside it, and otherwise the least turn boundary at or after it |
| `History.SafeCutUnique` | message/history.go:78-110 | that description leaves one cut |
| `History.CachePrefixBoundary` | message/history.go:112-138 | returns the least turn boundary behind every cache marker |
| `History.ProtectsUnique` | message/history.go:112-138 | there is only one such boundary |
| `History.AcceptCompaction` | agent/agent.go:846-883 | accepts exactly a compacted history of complete turns with the protected prefix unchanged |
| `History.ProtectedPrefix` | agent/agent.go:827-898 | through any run of compactions and appended turns the protected prefix stays unchanged, its boundary never moves back and the history stays complete |
| `TokenUsage.SaturatingAdd` | provider/provider.go:96-102 | the sum of two counts, capped at the largest integer |
| `TokenUsage.NormalizedConsistent` | provider/provider.go:84-94 | normalising makes usage consistent and leaves exactly the consistent ones alone |
| `TokenUsage.NormalizedClips` | provider/provider.go:84-94 | normalising moves each count into its range and no further: to no less than zero, a part to no more than its whole, the total to no less than input and output |
| `TokenUsage.AddSums` | provider/provider.go:69-82 | every count of a sum is the sum of the normalised counts, capped, and a flag is set exactly when either sets it |
| `TokenUsage.TotalSums` | provider/provider.go:69-102 | every count of a total is the plain sum of what was reported, capped once, and a flag is set exactly when some report sets it |
| `TokenUsage.AddConsistent` | provider/provider.go:69-82 | sums fit the integer and are consistent |
| `TokenUsage.AddCommutes` | provider/provider.go:69-82 | sums commute |
| `TokenUsage.AddAssociates` | provider/provider.go:69-82 | sums associate |
| `TokenUsage.ZeroIdentity` | provider/provider.go:69-94 | zero is the identity on exactly the consistent values |
| `TokenUsage.TotalOrderIndependent` | agent/agent_tool.go:543-547 | the total of concurrent children does not depend on reporting order |
| `TokenUsage.UsageCollector.Report` | agent/agent_tool.go:543-547 | the collector holds the total of all reports |
| `TokenPool.RunConserves` | agent/agent_tool.go:571-635 | under every interleaving what remains, the live claim and the clipped spends add up to the initial pool, and what remains is never negative |
| `TokenPool.RunAccounts` | agent/agent_tool.go:583-635 | over every run a claim was, when made, all that remained or the child's own smaller budget; a spend is what was reported as far as claimed; and a caller is turned away only by an empty pool or at its own wish |
| `TokenPool.OneAtATime` | agent/agent_tool.go:583-590 | at most one caller is past the gate, so at most one reservation is live |
| `TokenPool.GateFreedOnce` | agent/agent_tool.go:623-635 | each caller passes the gate at most once and frees it exactly once when done, however often settle is repeated |
| `TokenPool.SettleOnce` | agent/agent_tool.go:623-635 | repeating a settlement changes nothing |
| `TokenPool.TokenTracker.constructor` | agent/agent_tool.go:571-576 | the pool starts with the tokens given, none when negative, and the gate free |
| `TokenPool.TokenTracker.TryEnter` | agent/agent_tool.go:583-590 | passes the gate exactly when it is free |
| `TokenPool.TokenTracker.TakeClaim` | agent/agent_tool.go:592-614 | takes the whole remainder or the child's smaller budget, or refuses on an empty pool |
| `TokenPool.TokenTracker.LeaveGate` | agent/agent_tool.go:588-602 | a refused caller frees the gate |
| `TokenPool.Reservation.SettleUsage` | agent/agent_tool.go:623-635 | the first call returns what was not spent and frees the gate, later ones do nothing |
| `Orchestration.CompletionOrderIrrelevant` | orchestration/drive.go:204-241 | state and failures after a batch do not depend on completion order |
| `Orchestration.FoldedArranges` | orchestration/drive.go:221-230 | the next outcomes are the one sorted arrangement of the old ones and the successes, with distinct ids |
| `Orchestration.FoldedLegal` | orchestration/drive.go:77-86 | after a batch the next tick's state is legal, and a failed batch's state exactly when nothing in it succeeded |
| `Orchestration.DriveTold` | orchestration/drive.go:60-88 | a drive is its completed ticks, each gathering exactly what its batch produced in order of tick and id, and then the one reason it stopped for; a failed batch keeps its successes one tick ahead and reports exactly its failures, by id |
| `Orchestration.FoldedGathers` | orchestration/drive.go:204-241 | after a batch the outcomes are those before and exactly what its records produced, and the failures are exactly the failed records, by id |
| `Orchestration.DriveLegal` | orchestration/drive.go:60-88 | on every exit but a failed batch the state may start another drive |
| `Orchestration.DriveDeterministic` | orchestration/drive.go:60-88 | a whole drive does not depend on completion order |
| `Orchestration.DriveComposes` | orchestration/drive.go:60-88 | a ticks and then b more are a+b ticks |
| `Orchestration.CallsCompose` | orchestration/drive.go:34-88 | the same for two calls, the second started from the first one's state |
| `Orchestration.ValidateInitialState` | orchestration/drive.go:100-121 | accepts exactly states with valid, uniquely named, strictly sorted outcomes of past ticks |
| `Orchestration.ValidateBatch` | orchestration/drive.go:123-140 | accepts exactly valid dispatches with new, distinct ids |
| `Orchestration.ExecuteBatch` | orchestration/drive.go:204-241 | folds the records into the specified state and failures, and fails exactly when one did |
| `Orchestration.Run` | orchestration/drive.go:34-88 | the driver returns the specified state and ending |

## Left out

- Contexts, cancellation inside a turn, wall-clock limits and elapsed time: time is an argument of the durable commands and nowhere else.
- JSON, canonical encoding and hashing: a codec with opaque hashes in the durable model, a predicate on argument texts in the stream model.
- Error texts: errors are told apart by kind only.
- Cloning and aliasing of messages, steps and attempts: values are immutable here, so a copy is the value itself.
- LoadExecution: reads without changing anything.
- Lease tokens, versions and attempt numbers are unbounded; the program's wrap at 64 bits is not modelled.
- Token totals wrap in the continuation check as in the program, but the results on valid boundaries ask that no total has saturated.
- ValidateContinuation's checks of schema version, request budget, output policy and elapsed time: the model's continuation does not carry those fields.
- Compaction inside the loop: histories are compacted in `history.dfy`, and the loop is modelled without a compactor.
- LoopEngine.AgentLoop.Loop: observes a run for at most n turns, because an unlimited run may not end; the results hold for every n.
- LoopResume.ResumeEquivalence: compares runs that end without error; of failed runs, the step the decider failed is compared (`FailedStepStays`), as the others build their results differently.
- Sinks, frames, hooks, skills, recorded guardrail decisions and panic recovery in the loop.
- Tool preparation and dispatch: one function of the calls, the budget and the usage; the pool its children share is modelled on its own.
- DurableEffects.ExecuteTool: undisturbed between its commands; effects interleaved with other clients are the subject of the lemmas about runs.
- Model calls as effects: only their operation names are modelled; streams are recorded and replayed as the tool outcomes are, in another encoding.
- TokenPool.RunConserves: callers interleave at critical sections; goroutine scheduling and fairness are not modelled.
- Concurrency limits, launching and cancellation of a batch: the model takes any completed records a fair execution could leave.
- History.NamedExchangeIff: covers exchanges whose results all name a call; with an anonymous result only soundness is proved, because the first call may be taken from a later result.
- Retry delays, backoff and which errors are retryable: the host's answer to a retry request is one function of how many were made.
- Provider state and response metadata of a normalised response.
- HTTP, SSE transport, provider request shaping, process and HTTP tools, skill discovery, the example backend and the command line.
