# Verified model of the on-device agent dispatcher

The dispatcher puts a few small protocols between a "brain" and the Termux:API commands. This
project models them in Dafny and proves what they keep in every run.

A protocol that threads share is a state machine: a `State`, a function `Step`, and a `Run` over
an arbitrary schedule of actions, one action per lock section, queue operation or unlocked
effect. Every theorem about it quantifies over all schedules. The code of a single thread is
written beside it as classes and methods with the source's own fields, and the contract of each
says that its whole effect is a run of the machine in which no other thread moves (`Reaches`,
`Solo`, `CallAlone`, `WorkerAlone`). What the machines compute is fixed in turn by laws over the
requests, the verbs and the processes: which calls are let through, what each is told, and what
each row written about it says (`EveryReplyTells`, `EveryRowTells`, `CallLeaves`, `JobLeaves`).

| module | models |
|---|---|
| `Breaker`, `BreakerRaces` | `dispatch/store.py`: the append-only log, its two queries, `guard` and `record_outcome`, as one caller sees them and cut at their lock sections with clock readings taken outside the lock |
| `Catalog`, `Argv`, `Outcomes`, `TimeoutStage` | `dispatch/catalog.py`, `dispatch/tier_a.py` and the start of a watch: loading, argument checks, argv, stdin hook, redaction, one execution, and what each of these says in terms of its inputs |
| `Pipeline`, `PipelineAnswers`, `Gateway`, `PipelineBreaker`, `Redaction`, `Batch` | `dispatch/risk_gate.py` and `daemon.py`: request threads on one audit file and one store; the dialog's answer and what the process or Popen does are part of the request and arbitrary |
| `Dispatch`, `DispatchAnswers`, `DispatchOnce`, `DispatchJobs`, `DispatchReplay`, `DispatchOverlap`, `DispatchAudit`, `Engine` | `dispatch/engine.py` and `dispatch/confirm.py`: idempotent calls and confirm workers, the tables they share and their audit rows |
| `StreamBuffer`, `Subscriptions` | `dispatch/tier_b.py`: the drop-oldest queue, start and stop, the reaper, the pid ledger, orphan recovery |
| `YamlEmitter` | `scripts/enrich_verbs.py`: quoted scalars and flow lists, with a reader written from sections 5.1, 5.4, 6.3, 6.5, 7.3.2 and 7.4.1 of YAML 1.2.2 |

Functions that `engine.py` and `confirm.py` call but this commit does not define are taken by
contract: `put_confirm_job` overwrites a row by id, `get_confirm_job` looks one up,
`list_pending_confirms` lists the pending ids, `get_idempotency` and `put_idempotency` are a map
on (verb, key), `precheck` audits and then asks the breaker, `record_decision` audits the answer,
`validate_args` makes the checks of `build_argv` and `stdin_payload`.

What the proofs found the code not to do is stated with the input, or the run from the start state,
that shows it, and with the exact condition under which it holds:

- with timestamps read outside the lock, the latest-by-id test can miss a recent opening
  (`RacingTripsHideAnOpening`; exact: `OpenIffRecentOpening`);
- two overlapping calls with one key, or a retry after an exception in a direct execution, start
  the process twice (`OverlappingCallsStartTwice`, `RaisedCallStartsAgain`; exact:
  `StartsReachTheChances`);
- a job's own webhook, when its post raises, turns an executed or denied job into a failed one
  (`RaisingWebhookOverwrites`; exact: `TerminalIsAbsorbing`, `ChangedIffRescued`);
- two overlapping calls with one key also record twice, so the replays of a later call change from
  the first answer to the second (`OverlapChangesTheReplay`; exact: `RecordIsForever`);
- a stop time written by a delayed marking thread can land on a subscription the reaper has
  already removed (`LateMarkAfterReap`; exact: `PollableForGrace`);
- stopping a subscription strikes every ledger entry with its pid, so a recycled pid loses a live
  child (`RecycledPidUnlistsLiveChild`, `RecycledPidIsLost`; exact: `ListedStaysListed`,
  `LedgerMissesExactlyTheStruck`);
- an error is audited as a timeout whenever its text says so, which a verb name or a program name
  can bring about (`NamedSoIsAuditedAsTimeout`; exact: `TimeoutIffTimedOutOrNamedSo`);
- a template placeholder that is no argument raises an exception no handler catches
  (`UnboundPlaceholderEscapes`; exact: `BuildArgvOk`);
- a program that mentions the stdin argument leaks it, in runs and in watches
  (`ProgramFromStdinLeaks`, `WatchFromStdinLeaks`; exact: `StdinNeverShowsExactly`);
- single quotes do not undo the doubled backslash, and fold line breaks (exact: `FlowListRoundTrip`).

Where code and documentation disagree the model follows the code: `str.format` prints a boolean
as `True`, while `tests/test_engine.py` expects `true`; `confirm.py` passes `_confirm_on_device`
three arguments where `risk_gate.py` declares two, so a dialog that raises is one of its outcomes
here; nothing at this commit calls `fail_orphans`, whose effect the start state of the dispatch
machine takes as given.

## Model

| member | source | states |
|---|---|---|
| `Breaker.Store.Append` | dispatch/store.py:133-160 | exactly one row at the end with the next id, or for an unknown stage an error and no change |
| `Breaker.Store.FailureCount` | dispatch/store.py:176-184 | the size of the set of row positions with a failed or timed-out row of the verb since the window began |
| `Breaker.FailuresAreRows` | dispatch/store.py:176-184 | the recursive count that the other operations are stated with is the size of that set |
| `Breaker.Store.IsOpen` | dispatch/store.py:186-196 | there is a circuit_open row of the verb behind which no other stands, and it lies within the cooldown |
| `Breaker.Store.Guard` | dispatch/store.py:198-202 | raises exactly when open, and then leaves one circuit_open row without an error text |
| `Breaker.Store.RecordOutcome` | dispatch/store.py:204-218 | the outcome row, and behind it a trip exactly when the count reaches the limit while closed, each with its own clock reading |
| `Breaker.SoloRecordsOutcome` | dispatch/store.py:204-218 | the form cut at its lock sections writes the same log when uninterrupted |
| `Breaker.SoloGuards` | dispatch/store.py:198-202 | the same for guard, verdict included |
| `Breaker.OpenIffRecentOpening` | dispatch/store.py:186-196 | on every log: the latest-by-id test agrees at all times with "some opening lies within the cooldown" if and only if no opening of the verb is dated after the one appended last; left to right always |
| `Breaker.OpenIsExactUninterrupted` | dispatch/store.py:186-218 | after any uninterrupted guard and record_outcome calls under a clock that never runs back, the two agree |
| `Breaker.SlidingCooldown` | dispatch/store.py:186-202 | with no new failures guard rejects call k if and only if every gap up to k is shorter than the cooldown |
| `Breaker.NeverTrippedNeverRejected` | dispatch/store.py:186-202 | guard calls on a verb without an opening leave the log as it is |
| `BreakerRaces.StaleTripHidesAnOpening` | dispatch/store.py:145-160 | in any state: of two threads about to trip, the one that read its clock first appends last, and the test says closed at the moment of an opening just logged |
| `BreakerRaces.RacingTripsHideAnOpening` | dispatch/store.py:145-218 | for every limit, window and cooldown, callers starting from an empty log get there |
| `BreakerRaces.NoFalseTrip` | dispatch/store.py:133-218 | under every interleaving each circuit_open row is a trip on at least limit failures in the window, or a rejection within the cooldown of an earlier one |
| `BreakerRaces.EveryOpeningChainsToATrip` | dispatch/store.py:186-218 | from every circuit_open row a chain of ever earlier ones, each recent to the next, leads to a genuine trip |
| `BreakerRaces.NoLostTrip` | dispatch/store.py:204-218 | at least limit failing threads inside one window, starting closed, among any other callers, leave at least one trip and at most one each |
| `BreakerRaces.PerVerbProjection` | dispatch/store.py:176-218 | dropping all moves of other verbs' threads, times kept, changes no row, count, verdict or trip of this verb |
| `PipelineBreaker.PipelineNeverTripsFalsely` | dispatch/risk_gate.py:32-50 | the store log of any interleaving of whole requests is a log of the breaker machine, so its openings chain back to trips too |
| `PipelineBreaker.PipelineLosesNoTrip` | dispatch/risk_gate.py:32-50 | at least limit whole requests of one verb that fail or time out inside one window, starting closed, among any other requests under any schedule, leave at least one trip in the store and at most one each |
| `Catalog.Load` | dispatch/catalog.py:90-135 | accepts exactly the files whose every entry passes each check and whose confirmation risks are known; each verb has the fields of its entry, no arguments where the list is absent, and requires confirmation if and only if the entry's risk is in the list; an error names the first bad entry and the first check it fails, a missing key included |
| `Catalog.BuildArgvOk` | dispatch/catalog.py:35-42 | for every verb: argv is built if and only if the supplied names are exactly the declared ones and every placeholder is one of them; a wrong name is a ValueError, an unbound placeholder a KeyError |
| `Argv.ArgvSpelled` | dispatch/catalog.py:35-42 | argv is returned if and only if the names are the declared ones and element i, cut at some positions, is the texts of the pieces of part i in order, a literal its own and a placeholder that of its value: a string itself, a number in decimal, a flag True or False |
| `Argv.ArgCheckExact` | dispatch/catalog.py:35-56 | the checks pass exactly on the declared names with every placeholder bound and text or null for stdin, and the error says which names are missing or too many, which placeholder is unbound, or that stdin is no text |
| `Argv.StdinPiped` | dispatch/catalog.py:44-56 | nothing is piped without a hook, else the text, or an empty one for null |
| `Argv.PublicArgsShow` | dispatch/catalog.py:58-66 | in public the stdin argument is replaced by a note with its length in decimal, and no other is |
| `Argv.PublicArgsTellTheLength` | dispatch/catalog.py:58-66 | two argument maps have the same public form if and only if they differ at most in the stdin value, and not in its length |
| `Outcomes.TierAResult` | dispatch/tier_a.py:25-67 | a run of a loaded verb on valid arguments succeeds with exactly the data its process gave, by parser, fails with exactly the text and standard error of its failure, and passes on exactly the exceptions of the call |
| `Outcomes.MarkedIffSaysTimedOut` | dispatch/engine.py:78-80 | the error text holds "timed out" if and only if the run timed out or a name says so |
| `Outcomes.WatchResult` | dispatch/tier_b.py:59-76 | a watch starts, fails with the text of its OSError, or breaks exactly as Popen does |
| `Argv.ReprReadsBack` | daemon.py:336-341 | a program that is not there stands in that error in quotes and escaped so that it reads back |
| `Catalog.ValidatedOnceValidLater` | dispatch/tier_a.py:25-67 | after the checks before the gate, the checks of a run or a watch cannot fail again, and an exception escapes exactly if the process or Popen does what no handler expects; the checks are exact, and fail uncaught only for an unbound placeholder |
| `Catalog.UnboundPlaceholderEscapes` | dispatch/catalog.py:42 | every template with an unbound placeholder has correct arguments, and they raise that KeyError |
| `Catalog.TwinsLookAlike` | dispatch/catalog.py:58-66 | stdin texts of equal length have the same public arguments |
| `Catalog.ProgramFromStdinLeaks` | dispatch/tier_a.py:44-48 | if a Tier A program mentions the stdin argument anywhere, different texts of equal length give different error texts when it is not found |
| `Catalog.WatchFromStdinLeaks` | dispatch/tier_b.py:63-76 | a Tier B program leaks them the same way, through the text of the OSError of Popen |
| `Catalog.StdinStaysOutIffProgramIgnoresIt` | dispatch/tier_a.py:25-67 | the result of a run or a watch is the same for all such texts, whatever the process does, if and only if the program does not mention them or the template has an unbound placeholder, so that nothing runs |
| `Pipeline.LifecycleOfEveryRequest` | dispatch/risk_gate.py:80-111 | each request's audit rows are a prefix of requested, decision if gated, one outcome; its reply says which word was completed |
| `PipelineAnswers.ChecksAreExact` | daemon.py:287-326 | with a loaded catalog a request gets to the gate if and only if its verb is known, of the tier and direction of its route, and its arguments valid; each refusal's status and body are those of its cause |
| `PipelineAnswers.EveryReplyTells` | daemon.py:145-185 | in every run each reply is the refusal of its cause, the breaker's, the human's, or by the process the decoded value, null, the text or ok alone, the error text with its standard error, or the subscription id |
| `PipelineAnswers.EveryRowTells` | dispatch/risk_gate.py:32-105 | in every run each audit row, new store row and dialog is about one of the requests, with its verb, risk and redacted arguments; an outcome row has the error, at most 500 characters of standard error and the subscription of that run, and says timeout if and only if the run timed out or a name says so |
| `Pipeline.GateCannotBeBypassed` | dispatch/risk_gate.py:89-111 | a process starts only after every check passed and its intent was logged, and for a gated verb only after its own dialog was answered yes; a dialog is shown only for a gated call that passed every check and is on record |
| `Pipeline.PrefixAccounting` | daemon.py:145-185 | in every prefix of the audit file: outcomes at most approvals (gated) or requests, decisions at most requests, no decisions for ungated verbs |
| `Pipeline.AccountingAtRest` | daemon.py:328-347 | with nothing in flight, requested equals denied plus breaker-blocked plus outcomes plus requests lost to an uncaught exception, for every catalog; with a loaded one none is lost unless its process or Popen does what no handler expects |
| `Pipeline.StdinNeverShows` | dispatch/catalog.py:58-66 | if no program that can be run mentions its stdin argument, two runs that differ only in stdin texts of equal length have the same audit rows, dialogs, store rows and replies |
| `Redaction.StdinNeverShowsExactly` | daemon.py:328-347 | for a loaded catalog this holds of all requests, watches among them, and all schedules if and only if no program that can be run mentions its stdin argument |
| `Pipeline.LoadedCatalogLimitsRefusals` | daemon.py:287-326 | with a loaded catalog a refused request gets 400 or 404, the Tier C branch being dead, or the exception of an unbound placeholder on correct arguments |
| `Gateway.Gate.Audit` | dispatch/risk_gate.py:32-50 | one row at the end of the file, field by field, with the redacted arguments, then the breaker's record of the outcome, each with its own clock readings |
| `Gateway.Gate.Check` | dispatch/risk_gate.py:80-111 | returns, raises CircuitOpen or raises Denied exactly as the pipeline machine decides, leaving its file, store and dialogs, whatever the clock shows at each reading |
| `Gateway.Gate.Execute` | daemon.py:172-185 | runs the process as the machine does; unless an exception escapes, one row is added that tells the outcome, and the reply is what the process, or Popen, made of the request |
| `Gateway.Gate.Serve` | daemon.py:282-347 | a whole request is a run of the machine up to the reply; turned away for its cause and without a trace, or told that the breaker is open, that the human declined, or what its process made of it |
| `TimeoutStage.TimeoutIffTimedOutOrNamedSo` | daemon.py:175-179 | the error text says "timed out" if and only if the process timed out, or the verb's name or the missing program's name says so |
| `Gateway.NamedSoIsAuditedAsTimeout` | daemon.py:175-179 | a run in which a process that only exited with an error leaves a timeout row |
| `Batch.ParseBatch` | daemon.py:126-142 | the entries in order, absent arguments being none, or the error of the first bad one |
| `Batch.Server.BatchPerceive` | daemon.py:188-217 | a batch with a bad entry leaves audit file, store and dialogs unchanged and reports why the first bad one is refused; otherwise, under every interleaving of its workers with all other requests and every order of completion, slot i is entry i's name and the status and body of its own request's reply, none is empty, and only an uncaught exception of a worker spoils the answer |
| `Batch.AcceptedEntriesAreServed` | daemon.py:188-217 | with a loaded catalog the workers of an accepted batch fail no check again and raise nothing but what a process raises that no handler expects; each reply is that of the rows its request wrote |
| `Batch.BatchAcceptsWhatPerceiveAccepts` | daemon.py:189-202 | a batch takes an entry exactly when the perceive route would |
| `DispatchAnswers.ChecksAreExact` | dispatch/engine.py:113-161 | with a loaded catalog a call is served if and only if its verb is known, of the tier and direction of its kind, its arguments valid, its webhook not bad, it is no dry run, it has a key if it is an act or watch of high risk, and the key is not over 256 characters; else the status and code are those of the cause, and a valid dry run shows argv, the length of stdin and the two flags |
| `DispatchAnswers.TurnedAwayLeavesNoTrace` | dispatch/engine.py:113-161 | in every state and every continuation: a call that is not served, a dry run included, changes nothing but its own answer, which it has at once |
| `DispatchAnswers.ExecutionTells` | dispatch/engine.py:55-98 | an execution is answered with the data, the subscription or the error, its text and standard error, that its process or Popen led to, status 200, 400 or 500; code TIMEOUT and stage timeout if and only if the run timed out or a name says so |
| `DispatchAnswers.ExecutionsFit` | dispatch/confirm.py:108-156 | in every run whatever is about to be executed is a known verb on its route with valid arguments, and for a job just what its row, redacted, shows the human |
| `DispatchOnce.AtMostOnce` | dispatch/engine.py:157-207 | in every run in which no two calls with the key are past their lookup together and no direct execution on it ends in an exception, workers stepping anywhere, the key has at most one process start |
| `DispatchOnce.AtMostOnceInTurn` | dispatch/engine.py:157-207 | so calls that arrive one after the other's answer start it at most once |
| `DispatchOnce.StartsReachTheChances` | dispatch/engine.py:159-207 | in every state: the calls and workers already past the lookup can bring the starts of a key to n if and only if starts, calls that may act and workers that may start are at least n |
| `DispatchOnce.OverlappingCallsStartTwice` | dispatch/engine.py:159-207 | from boot, for gated and ungated verbs, two arrivals that both look up before either records lead to two starts |
| `DispatchOnce.RaisedCallStartsAgain` | dispatch/engine.py:201-207 | from boot, a retry that waits for the reply of a call lost to an exception leads to a second start |
| `DispatchOnce.RecordedNeverStarts` | dispatch/engine.py:159-181 | a key already on record when the daemon comes up is never acted on again, overlap or not |
| `DispatchJobs.StartsAreCleared` | dispatch/engine.py:151-207 | a confirmation-required verb starts only through a job whose dialog said yes, and a high-risk act or watch only under a key |
| `DispatchJobs.PendingIsInFlight` | dispatch/confirm.py:119-138 | in every run a pending row is in `_in_flight` or between the two lines that set it up |
| `DispatchJobs.TerminalIsAbsorbing` | dispatch/confirm.py:153-209 | in every reachable state: an ended row keeps its contents in all continuations if and only if its own worker is not about to post its webhook, if it has one, in the try block and has not just seen that raise |
| `DispatchJobs.ChangedIffRescued` | dispatch/confirm.py:194-206 | in every run: an ended row has changed if and only if the handler of its own raising webhook wrote it since |
| `DispatchJobs.RowAlongRun` | dispatch/confirm.py:153-209 | in a run whose webhook for this job does not raise, other jobs' webhooks raising or not, an ended row never changes and a pending one only by ending |
| `DispatchJobs.RaisingWebhookOverwrites` | dispatch/confirm.py:177-206 | from boot, for every gated verb and every request with a webhook: an executed row and a denied one both become failed |
| `DispatchReplay.RecordIsForever` | dispatch/engine.py:159-207 | in every reachable state: the answer recorded for a key is kept in all continuations if and only if no call on the key is past its lookup, other than one about to record that same entry |
| `DispatchReplay.ExclusiveIsSteady` | dispatch/engine.py:159-207 | which is so in every run in which no two calls with the key are past their lookup together |
| `DispatchOverlap.OverlapChangesTheReplay` | dispatch/engine.py:159-207 | from boot, for every keyed request, gated or not, and any two answers: after two overlapping calls the same later call is told first the one's record and then the other's |
| `DispatchReplay.AnswersConverge` | dispatch/engine.py:159-181 | in every run, from any step on at which the key is steadily on record: calls that find it with other arguments get 409, equal ones one and the same 202 until the job ends and one constant from then on, the replay on the final row; without a job the constant is there from the start, and the recording call was answered with it |
| `DispatchReplay.PollsAgreeWithReplays` | dispatch/engine.py:210-220 | in such a run, a call answered after the job's end has the `verb_http_status` of every poll after it and the body that poll holds; before the end it shows, with 202, the poll's view |
| `DispatchReplay.ReplayTellsTheEnding` | dispatch/confirm.py:153-206 | what a call is told after the job's end: the refusal with 403 if the dialog said no, the very answer of the execution if there was one, a 500 with the failed job if an exception ended it |
| `DispatchReplay.PollTellsTheEnding` | dispatch/confirm.py:54-71 | in such a run a poll after the end shows the status, code and error of that ending: CONFIRM_DENIED and 403, the answer's own, or EXECUTION_FAILED and 500, but neither code nor error for an exception without a text |
| `DispatchReplay.DeniedNeverRan` | dispatch/confirm.py:156-178 | no process was started for a job whose row says denied |
| `DispatchAudit.PrefixAccounting` | dispatch/engine.py:55-98 | the counting laws in each prefix of the rows that dispatch calls and confirm workers write, under every schedule, each decision and outcome of a gated verb coming from a worker thread |
| `Engine.Daemon.FailOrphans` | dispatch/confirm.py:84-106 | every pending row becomes failed with 500, EXECUTION_FAILED and its note, keeping its call; terminal rows are untouched, and the result is the number of rows changed |
| `Engine.Daemon.Submit` | dispatch/confirm.py:108-141 | the pending row, its `_in_flight` entry and its worker |
| `Engine.Daemon.Dispatch` | dispatch/engine.py:101-207 | a whole call leaves the state and answer the machine reaches alone: turned away for its cause without a trace; the replay of its key; 500 when the breaker is open; 202 with the pending row, redacted, its worker and its record; or what the process did, told, audited and recorded |
| `Engine.Daemon.RunJob` | dispatch/confirm.py:143-209 | a whole job leaves what the machine reaches alone: its row is refused with 403, holds status, code, error and payload of what the process did, or is broken with 500 by an exception of its own or of its webhook; one decision row, one outcome row if there was one, and no other job's row changed |
| `StreamBuffer.Subscription.Offer` | dispatch/tier_b.py:100-110 | the item goes in at the end; if the queue was full exactly the oldest one goes, and `dropped` counts it; the machine's producer gets there |
| `StreamBuffer.Subscription.ReadLines` | dispatch/tier_b.py:84-111 | the queue ends as the newest 500 of what it held and what the stream brought, and `dropped` grows by exactly the rest; the machine's producer gets there |
| `StreamBuffer.LinesBecomeItems` | dispatch/tier_b.py:89-99 | each line that is not blank becomes one item, at its place among those lines: its stripped text, on a JSON stream the value it decodes to, or the raw text if it does not |
| `StreamBuffer.Subscription.Poll` | dispatch/tier_b.py:122-130 | the oldest items up to the maximum, in order, are taken off the queue, as by one poller of the machine |
| `StreamBuffer.DrainInTenPolls` | dispatch/tier_b.py:122-130 | ten poll calls of 50 on an ended stream return the whole queue in order and leave it empty |
| `StreamBuffer.QueueConservation` | dispatch/tier_b.py:84-130 | under every interleaving: removed items followed by the queue are the items put, all are accounted for but one uncounted drop, the bound is 500, and each item is placed within two attempts |
| `StreamBuffer.PolledIsASubsequence` | dispatch/tier_b.py:122-130 | what one poll returns, and what all return together, is a subsequence of the stream |
| `Subscriptions.ReaperSafety` | dispatch/tier_b.py:157-173 | with racing marks: registered subscriptions are pollable unless reaped, and reaped only when stopped and past the grace period of the stop time then on record |
| `Subscriptions.StoppedIsForever` | dispatch/tier_b.py:157-173 | `stopped` never reverts, a registered subscription leaves the registry only through the reaper, and a reaped one never comes back |
| `Subscriptions.PollableForGrace` | dispatch/tier_b.py:162-173 | in every state: a stopped, registered subscription stays pollable for the grace period after its last recorded stop time in all continuations if and only if no racing mark has its time still to take, or holds one within grace that is later than the time on record or another pending one |
| `Subscriptions.StopTimeIsFinal` | dispatch/tier_b.py:157-160 | once no mark is half done the stop time never changes |
| `Subscriptions.LateMarkAfterReap` | dispatch/tier_b.py:157-160 | from boot, a stop time of now comes to stand on a subscription no longer pollable |
| `Subscriptions.MarkAlone` | dispatch/tier_b.py:157-160 | the unlocked pieces of a mark, uninterrupted, stop the subscription and record the present time, or change nothing |
| `Subscriptions.Manager.Start` | dispatch/tier_b.py:113-119 | a new registered subscription whose pid ends the ledger, as the machine's three steps leave it |
| `Subscriptions.Manager.Stop` | dispatch/tier_b.py:132-149 | an unknown id changes nothing; a known one is dead, stopped at its first stop time, and has every ledger entry of its pid struck, as the machine leaves it |
| `Subscriptions.Manager.Reap` | dispatch/tier_b.py:162-173 | exactly the subscriptions past their grace period leave the registry, as in the machine |
| `Subscriptions.LedgerMissesExactlyTheStruck` | dispatch/tier_b.py:183-192 | in every run, hence in any state a crash can hit, recycled pids or not: a child whose start returned is missing from the ledger if and only if its pid was struck and not written again since |
| `Subscriptions.ListedStaysListed` | dispatch/tier_b.py:132-149 | in every reachable state: a listed pid stays listed in all continuations without a new stop call on it if and only if no stop call on it is still under way |
| `Subscriptions.LedgerCoversChildren` | dispatch/tier_b.py:183-192 | so each such child is listed as long as no stop call has named a subscription with its pid |
| `Subscriptions.RecycledPidIsLost` | dispatch/tier_b.py:190-192 | in any state, a stop call under way costs every other child with the same pid its entry |
| `Subscriptions.RecycledPidUnlistsLiveChild` | dispatch/tier_b.py:190-192 | from boot, a live, unstopped child comes to be missing |
| `Subscriptions.Ledger.Remove` | dispatch/tier_b.py:190-192 | every entry of the pid goes and exactly the others stay, in order |
| `Subscriptions.Ledger.RecoverOrphans` | dispatch/tier_b.py:222-247 | signals only listed, live, termux-* processes, leaves none of those alive, returns each once, empties the ledger |
| `Subscriptions.CrashThenRecovery` | dispatch/tier_b.py:222-247 | after a crash in any state, a live termux-* child that start had handed out survives recovery if and only if its pid was struck and not written again; so not if no stop call named it |
| `YamlEmitter.FlowListReadsBack` | scripts/enrich_verbs.py:222-224 | at every indentation: a printed list reads back as its strings do with backslashes doubled and line breaks folded, and fails to read exactly if one of those cannot be folded; it reads back as the doubled strings if and only if each is one line |
| `YamlEmitter.FlowListRoundTrip` | scripts/enrich_verbs.py:263-267 | at every indentation: the list itself comes back if and only if no string holds a backslash or a control character |

## Left out

- HTTP sockets, body reading, tokens, health and listing routes: I/O plumbing.
- `dispatch/mcp.py`: header checks that one branch each settles; its tool call only forwards to `dispatch`.
- libSQL, the pragmas, durability and configuration: a table is a sequence and a commit an append; store writes succeed.
- `subprocess`, the dialog, signals and `/proc`: oracles. A process may time out, be missing, exit, be refused with a ValueError of arbitrary text, or raise what no handler expects; Popen may start, raise an OSError or raise another exception. Two runs that differ only in stdin texts meet the same outcomes.
- Text that cannot be encoded: Dafny's characters leave out the lone surrogates that a JSON string may hold, and the ValueError of such a stdin text names one of them; that ValueError is an outcome here, but its text does not depend on the arguments. The same goes for a NUL character in an argument.
- The escapes of `repr` for characters above 0x7f: each stands for itself in the text of an OSError.
- Python floats: clock values and timestamps are reals.
- Webhook posting and URL parsing: a notify step that may raise for a job with a webhook.
- SHA-256 and JSON in `args_hash`: taken as injective, so the arguments themselves are compared.
- The fields of a dry-run payload that only repeat the verb's own, and the wording of an uncaught exception.
- `str.format` beyond `{name}` and literal text; printing of nested values.
- Wording of error messages where only their kind matters, and the order of names in the messages about missing and unexpected arguments.
- The breaker's verdict in a dispatch call is an arbitrary oracle; its store is modelled in `Breaker` and `PipelineBreaker`. In the dispatch machine the answer of an execution is arbitrary too, within the statuses 200, 400 and 500; `Engine` computes it from the process outcome.
- The text of `webhook_url` beyond none, good or bad, and the field `idempotency_key` of a job row: no modelled answer depends on them. A row lookup that raises in `_notify` is not among the raising webhooks.
- A verbs.yaml without its `verbs` key, and crashes in the middle of a dispatch call or of a pidfile write; a corrupt pidfile.
- The `stopped` audit row of a deleted watch: it goes to the file only and to no count.
- `tier_c.py`, `errors.py`, the setup and boot scripts and the prose tables of `enrich_verbs.py`: constants and glue.
- Engine.Daemon.Dispatch: relates the code to the machine for a call nothing interrupts; the interleaved theorems are about the machine.
- Pipeline.PrefixAccounting: audit timestamps are read in the step that writes the row, so a file out of time order is not captured.
- Where PyYAML departs from YAML 1.2.2: it ignores the indentation of folded lines and refuses some unprintable characters.
