# Muxiva core: a verified model

Muxiva's core is a bounded, concurrent dataflow runtime: graphs of nodes joined by typed,
bounded edges, executed by one thread per node and one dispatcher per edge, with an
asynchronous request stream, a mailbox for foreign-language nodes, adaptive flow control,
a synchronous runner and exact media timing around it. This project states what those parts
do as Dafny state machines, classes and functions, and proves what they promise on every
input, every interleaving and every run. `dafny verify dfyconfig.toml` checks all of it.

| files | part of the system |
|---|---|
| `RuntimeModel`, `RuntimeInvariant`, `RuntimeSteps`, `RuntimeTheorems`, `RuntimeWakeups`, `RuntimeMeasure`, `RuntimeProgress`, `RuntimeFlow`, `RuntimeCalls`, `RuntimeAborts` | concurrent graph execution, one atomic step per lock-protected region or channel operation: safety, wake-ups, deadlock freedom, termination, what becomes of every frame and signal, which callbacks are made, and why a run aborts |
| `RunControl`, `RunFailures`, `RunOutcome` | the control record of a run, the coordinator that publishes its one outcome, where that outcome comes from, and how it follows from the threads' exits |
| `ManagedModel`, `ManagedInvariant`, `ManagedSteps`, `ManagedExecutor`, `ManagedRuns`, `ManagedLoops`, `ManagedPark`, `ManagedAnswers`, `ManagedWorker` | the managed asynchronous stream, its executor and workers, when the executor parks, and admission slots |
| `ForeignDriver`, `ForeignRuns`, `ForeignCalls`, `ForeignAccounts`, `ForeignGate` | the foreign-node command and completion mailbox |
| `GraphOrder`, `GraphBuilder` | graph validation and the stable topological order |
| `SyncRouting`, `SyncEvents`, `SyncRunner` | the synchronous graph runner, and the log of what it hears |
| `EdgeQueue` | the bounded edge queue |
| `RealtimeProfile`, `FlowControl`, `FlowRuns`, `FlowHysteresis`, `FlowLevels`, `FlowAnswers` | realtime profiles and the adaptive flow controller |
| `AudioTiming`, `AudioMerge`, `MediaPipeline`, `MediaAnswers` | sample durations, prefix merging, and the media pipeline's timeline and answers |
| `Optional`, `FiniteSets`, `SmallestFirst`, `QueuePolicies`, `Division` | shared vocabulary and arithmetic |

How the parts are stated:

- Concurrent parts are state machines over values. A run is a sequence of states, each
  produced from the one before by some step of some thread; node callbacks, policies,
  adapters, clocks and timers answer arbitrarily. Theorems quantify over every run.
- Code that updates an object under one lock, or in one thread, is a class or a method with
  loops. Each method is proved equal to a specification function of the old state, and the
  lemmas about every run are about that function.
- What a part has done is told by a log of its own: a history read off the states, the actions
  taken and the answers given along a run, and compared with the state at every moment. So
  nothing a callback emits, a caller submits or a worker answers can be lost or altered on the way.
- Where the code does not keep a natural promise, an input shows it and the exact condition is
  proved instead. An ordinary foreign command can be handed out after a stop, graceful or not,
  exactly when before it some queued command belonged to no live undispatched call or to the
  very call a failing completion answers (`ForeignRuns.StopHandsOutIff`). A flow completion
  keeps the in-flight totals equal to the sums over active admissions exactly when the clock
  has not run behind the admission (`FlowRuns.CompletionBalancesIff`). A cancelled head of the
  managed stream stays unresolved while the executor is parked exactly when its whole
  cancellation, which takes no lock, fell between that round's sweep of it and the park
  (`ManagedPark.CancellationMissedIff`).
- The comment above `merge_audio_prefix` speaks of the longest compatible prefix; the code
  stops at the first prefix that reaches the target, and that is what `IsMerge` says.

## Model

| member | source | states |
|---|---|---|
| RuntimeTheorems.DeadlockFree | crates/muxiva-core/src/concurrent.rs:1139-1387 | in every reachable state of any acyclic graph, whatever the overflow policies, all threads have exited or some thread can step or a tick timer is pending |
| RuntimeTheorems.NobodySleeps | crates/muxiva-core/src/queue.rs:188-238 | in a stuck state no dispatcher sleeps on a full queue: by induction down the topological order its consumer would be held by another sleeping one further down |
| RuntimeTheorems.AllWorkersGone | crates/muxiva-core/src/concurrent.rs:1059-1110 | in a stuck state every worker, taken in topological order, has exited |
| RuntimeTheorems.NoLostWakeup | crates/muxiva-core/src/queue.rs:83-114 | a consumer parked on its observed generation while a frame or signal waits for it has a notification pending from the step that put it there |
| RuntimeWakeups.ChangesAreAnnounced | crates/muxiva-core/src/queue.rs:83-114 | for every run, every earlier state j and every edge: if the consumer is still on its generation of state j and since then the edge was closed, or a frame or signal entered it, a notification for that very edge is pending, parked or not, timer or not |
| RuntimeWakeups.RunTells | crates/muxiva-core/src/queue.rs:340-345 | along every run a consumer's generation only grows, and as long as it does not grow every change of an incoming edge is still to be announced |
| RuntimeWakeups.StepTells | crates/muxiva-core/src/signal.rs:58-103 | every step of every thread moves the target's generation, leaves a notification pending, or changes nothing the consumer waits for |
| RuntimeTheorems.NoLostClose | crates/muxiva-core/src/concurrent.rs:1216-1260 | in particular a consumer parked without a timer while all its inputs are closed has a close notification pending |
| RuntimeProgress.AbortEnds | crates/muxiva-core/src/concurrent.rs:2006-2046 | from the moment an abort is installed, without any timer having to expire, the threads' own steps bring every worker and dispatcher to its exit, within the measure of that moment |
| RuntimeProgress.OwnStepsAreBounded | crates/muxiva-core/src/concurrent.rs:1059-1516 | from any reachable state, aborted or not, at most `Work` many own steps are possible before a timer expires or a stop comes from outside, whatever callbacks emit within their budget |
| RuntimeProgress.ComesToRest | crates/muxiva-core/src/concurrent.rs:1059-1516 | from every reachable state own steps lead, within the measure, to a state in which every thread has exited or only tick timers are awaited |
| RuntimeProgress.RestAfterAbortIsExit | crates/muxiva-core/src/concurrent.rs:1216-1260 | after an abort the runtime rests only when every thread has exited, pending ticks notwithstanding |
| RuntimeProgress.UnfedNeverTick | crates/muxiva-core/src/concurrent.rs:1139-1260 | on every run a consumer without an incoming edge is never called back and never asks for a tick |
| RuntimeProgress.UnfedNeverPark | crates/muxiva-core/src/concurrent.rs:1216-1260 | such a consumer never parks: it finds all of its inputs closed and leaves |
| RuntimeProgress.OwnStepLowers | crates/muxiva-core/src/concurrent.rs:1059-1516 | every step of a worker, a dispatcher or the closing sweep lowers the measure |
| RuntimeProgress.WorkerLowers | crates/muxiva-core/src/concurrent.rs:1263-1387 | a worker step, a callback within the emission budget included, lowers its own work by more than it raises that of the edge it changes |
| RuntimeProgress.DispatcherLowers | crates/muxiva-core/src/concurrent.rs:1435-1516 | a dispatcher step lowers the work at its edge by more than the notification it gives can cost |
| RuntimeTheorems.NoLostSpace | crates/muxiva-core/src/queue.rs:188-215 | a producer asleep in push sleeps on a full open queue, or the closing sweep is about to wake it |
| RuntimeTheorems.SignalsPrecedeFrames | crates/muxiva-core/src/concurrent.rs:1303-1385 | whenever a frame batch enters a dispatcher channel, every outgoing edge's signal queue has already accepted, last and in order, every signal of that callback |
| RuntimeTheorems.BatchComesFromBarrier | crates/muxiva-core/src/concurrent.rs:1335-1385 | only the edge's own producer, past the signal barrier, puts a frame batch into its channel, and it is that callback's batch for that edge |
| RuntimeTheorems.FailedBarrierAborts | crates/muxiva-core/src/concurrent.rs:1450-1466 | if some edge did not accept all signals, an abort reason is installed and the producer turns to failing instead of sending frames |
| RuntimeTheorems.ClosedDispatchHasReason | crates/muxiva-core/src/concurrent.rs:1389-1402 | a producer that finds its dispatcher gone always finds an abort reason installed |
| RuntimeFlow.CleanRunDeliversAll | crates/muxiva-core/src/concurrent.rs:1435-1472 | a run that ends without abort has shown every frame its callbacks returned to the edge's policy, none of which failed, and handed every frame a policy forwarded to the consumer, in order, except those a full queue refused or evicted as its overflow policy says; with Block or AbortRun received is exactly forwarded; and every signal was heard |
| RuntimeFlow.NothingIsLost | crates/muxiva-core/src/concurrent.rs:1263-1387 | before an abort, on every run and edge: what callbacks returned is what was sent and what is still to be sent; what was sent is what the policy was shown, the rest in the dispatcher's hand and the channel; what was forwarded is what was offered to the queue and the frame being pushed; what the queue took in has left at its front or is in it; and the same for signals |
| RuntimeFlow.StepKeepsFlow | crates/muxiva-core/src/concurrent.rs:1435-1516 | every step of every thread keeps these accounts of an edge |
| RuntimeFlow.RunHasTrace | crates/muxiva-core/src/concurrent.rs:1059-1516 | every run can be told with the actions that were taken, so what is proved of traces holds of runs |
| RuntimeCalls.CallbacksHaveCauses | crates/muxiva-core/src/concurrent.rs:1139-1260 | on every run each callback of a node has a cause of its own: the start of a source, a tick that fired, a frame or a signal received; every cause leads to a callback; and a callback that fails, in preparation or later, aborts the run |
| RuntimeCalls.CleanRunCallsAll | crates/muxiva-core/src/concurrent.rs:1112-1137 | a run that ends without abort has started every source once, failed nowhere and left no tick asked for that did not fire |
| RuntimeCalls.NobodyStartsEarly | crates/muxiva-core/src/concurrent.rs:1059-1110 | no worker passes the gate before every node has prepared or aborted the run |
| RuntimeCalls.TakenEdgeGoesLast | crates/muxiva-core/src/concurrent.rs:1143-1215 | taking a frame or signal leads to a callback, and the input it came from is visited last in the next scan |
| RuntimeAborts.AbortsHaveCauses | crates/muxiva-core/src/concurrent.rs:2006-2046 | every abort has a cause: a stop from outside, a failing callback, emission or policy, an overflow of an aborting queue, or a full signal queue |
| RuntimeTheorems.UnpreparedMeansAborted | crates/muxiva-core/src/concurrent.rs:1059-1110 | a worker that exits without having been prepared leaves an abort reason behind |
| RuntimeTheorems.StuckDispatcher | crates/muxiva-core/src/concurrent.rs:1435-1472 | a dispatcher that cannot step waits for its producer, sleeps on a full queue, or is gone |
| RuntimeTheorems.StuckWorker | crates/muxiva-core/src/concurrent.rs:1139-1261 | a worker that cannot step is held by the prepare gate, by an outgoing channel, by its wake-up generation, or is gone |
| RuntimeSteps.StepKeepsInv | crates/muxiva-core/src/concurrent.rs:1139-1516 | every step of every thread keeps the per-edge, per-worker and control invariants |
| RuntimeSteps.RunKeepsInv | crates/muxiva-core/src/concurrent.rs:1139-1516 | every state of every run satisfies them |
| RuntimeSteps.SweepKeepsInv | crates/muxiva-core/src/concurrent.rs:2006-2046 | the close-everything sweep of the first abort keeps them, one queue at a time, in both drain modes |
| RuntimeSteps.DispatcherKeepsInv | crates/muxiva-core/src/concurrent.rs:1435-1516 | every dispatcher step keeps them, including failing inside a signal batch |
| RuntimeSteps.WorkerKeepsInv | crates/muxiva-core/src/concurrent.rs:1059-1387 | every worker step keeps them |
| RuntimeInvariant.VisitAtDistance | crates/muxiva-core/src/concurrent.rs:1143-1215 | a scan from the rotating cursor meets every edge at its distance from the cursor |
| RunControl.OneOutcome | crates/muxiva-core/src/concurrent.rs:827-899 | the first abort reason never changes, a sealed success excludes any later abort, and at most one result is published, telling that reason or success |
| RunControl.ReasonAtAborting | crates/muxiva-core/src/concurrent.rs:888-893 | the coordinator never reaches begin_aborting without an installed reason |
| RunControl.CoordinatorReachesOutcome | crates/muxiva-core/src/concurrent.rs:1518-1616 | after collection the coordinator can always step, each step brings the published outcome closer |
| RunOutcome.CollectionEnds | crates/muxiva-core/src/concurrent.rs:1524-1542 | once every thread has exited, each worker was prepared or an abort reason is installed, so the coordinator may stop collecting |
| RunOutcome.ExitedRunHasOutcome | crates/muxiva-core/src/concurrent.rs:1518-1616 | once every thread has exited, the coordinator's own steps, whatever the hooks answer, end within a bound in exactly one published outcome: success exactly if over the whole run no finish hook failed and no abort was installed from outside, and otherwise a failure telling such a reason |
| RunOutcome.CoordinatorEnds | crates/muxiva-core/src/concurrent.rs:1518-1616 | from any state past collection the coordinator reaches its end, keeping an installed reason |
| RunFailures.FailedHookFailsRun | crates/muxiva-core/src/concurrent.rs:1546-1572 | on every run, once a finish hook fails no finish hook is called any more, and the outcome is a failure with that hook's reason, unless an abort requested from outside came first |
| RunFailures.SuccessIff | crates/muxiva-core/src/concurrent.rs:1542-1573 | a run that is over succeeded exactly if no finish hook failed and no abort was installed from outside; otherwise it tells such a reason |
| RunFailures.ReasonHasCause | crates/muxiva-core/src/concurrent.rs:834-847 | every installed reason was the first to be requested from outside, or is that of a failed finish hook |
| RunFailures.OneHookFails | crates/muxiva-core/src/concurrent.rs:1546-1558 | at most one finish hook fails in a run |
| RunControl.HooksFollowTopology | crates/muxiva-core/src/concurrent.rs:1542-1612 | hooks run so far are finish hooks in reverse topological order followed by abort hooks in reverse topological order; success means every finish hook ran and no abort hook, and a published failure that every prepared node's abort hook ran |
| RunControl.HooksRunOncePerPreparedNode | crates/muxiva-core/src/concurrent.rs:1518-1616 | on every run each finish hook and each abort hook run so far is one of a prepared node, and no hook runs twice |
| RunControl.HooksOfPrepared | crates/muxiva-core/src/concurrent.rs:1518-1562 | finishing is begun only when every node was prepared |
| RunControl.AbortTrailDescends | crates/muxiva-core/src/concurrent.rs:1574-1612 | the abort hooks run only for prepared nodes, each once, strictly downwards |
| RunControl.AbortTrailIsComplete | crates/muxiva-core/src/concurrent.rs:1574-1612 | and leave no prepared node out |
| RunControl.FinishTrailAt | crates/muxiva-core/src/concurrent.rs:1542-1562 | the finish hooks visit each position once, downwards |
| RunControl.RunMovesLater | crates/muxiva-core/src/concurrent.rs:827-899 | reason, seal and published results only grow along a run |
| RunControl.RunInvariant | crates/muxiva-core/src/concurrent.rs:1518-1616 | record and hook trail stay consistent with the coordinator's position on every run |
| RunControl.RuntimeControl.MarkRunning | crates/muxiva-core/src/concurrent.rs:827-833 | moves a starting record to running, unless a reason is installed |
| RunControl.RuntimeControl.RequestAbort | crates/muxiva-core/src/concurrent.rs:834-847 | installs only the first reason, never after a sealed success or a result |
| RunControl.RuntimeControl.BeginFinishing | crates/muxiva-core/src/concurrent.rs:856-869 | begins finishing exactly when there is no reason and no result |
| RunControl.RuntimeControl.SealSuccess | crates/muxiva-core/src/concurrent.rs:870-879 | seals exactly when there is no reason and no result |
| RunControl.RuntimeControl.PublishSuccess | crates/muxiva-core/src/concurrent.rs:880-887 | publishes the success outcome |
| RunControl.RuntimeControl.BeginAborting | crates/muxiva-core/src/concurrent.rs:888-893 | returns the installed reason and moves to aborting |
| RunControl.RuntimeControl.PublishAbort | crates/muxiva-core/src/concurrent.rs:894-899 | publishes the failure outcome |
| ManagedRuns.StrictOrderIsSubmissionOrder | crates/muxiva-core/src/managed_stream.rs:811-837 | under strict ordering results enter the mailbox in strictly increasing submission order, each telling the outcome that won its request |
| ManagedRuns.PassedMeansDelivered | crates/muxiva-core/src/managed_stream.rs:811-837 | a request the head has passed and no cancel ever targeted was delivered exactly once, with the outcome that won |
| ManagedAnswers.CallerIsToldTheAnswer | crates/muxiva-core/src/managed_stream.rs:1056-1092 | on every run, what is delivered of a request no cancel targeted is the answer its worker gave while the request was undecided, the only answer it ever gave, or a timeout that a sweep or admission decided while the request was undecided |
| ManagedAnswers.StepDecides | crates/muxiva-core/src/managed_stream.rs:580-610 | an undecided request is decided by exactly four actions, each with its own outcome: its worker's answer, a cancellation, a due sweep and a due admission, the last two only if it is not flagged |
| ManagedAnswers.DecidedByVerdict | crates/muxiva-core/src/managed_stream.rs:580-610 | the first such verdict on a request is its outcome for good |
| ManagedAnswers.AnswersOnce | crates/muxiva-core/src/managed_stream.rs:987-1092 | no request is answered by its worker twice |
| ManagedAnswers.ResultsAreTakenInOrder | crates/muxiva-core/src/managed_stream.rs:479-497 | callers take what was delivered in that order, each result once, and until the stream is closed nothing delivered is missing from what was taken and what is left |
| ManagedAnswers.SubmissionAcceptedIff | crates/muxiva-core/src/managed_stream.rs:403-457 | a submission that is not refused outright is accepted exactly if the stream is open and fewer requests than the capacity were submitted and not yet taken in; it then waits last, and otherwise its lease is given back |
| ManagedAnswers.SlotAcquiredIff | crates/muxiva-core/src/admission.rs:58-138 | a slot can be acquired exactly if some slot is neither held by a caller nor leased to a request |
| ManagedAnswers.NoSlotIsLeaked | crates/muxiva-core/src/managed_stream.rs:655-698 | on every run each lease a request holds is still wanted by it, can at once be given back by the winner, or, after a stop dropped the request, will be claimed by the cancellation under way |
| ManagedRuns.NoGapBeforeTheHead | crates/muxiva-core/src/managed_stream.rs:716-780 | every popped request not yet passed is active or resolved, and at most a window of them separates the head from the newest |
| ManagedRuns.RetiredMeansEmitted | crates/muxiva-core/src/managed_stream.rs:716-745 | under relaxed ordering a retired request no cancel ever targeted was emitted exactly once, with the outcome that won |
| ManagedRuns.EmittedAtMostOnce | crates/muxiva-core/src/managed_stream.rs:716-837 | in both orderings no request is emitted twice and every emitted outcome is the one that won |
| ManagedRuns.WindowHolds | crates/muxiva-core/src/managed_stream.rs:844-914 | the in-flight window holds in both orderings, and every request still in a worker, timed out or not, counts as active |
| ManagedRuns.NothingGoesBack | crates/muxiva-core/src/managed_stream.rs:580-610 | along every run a terminal flag is won once and never changes hands, a lease is given back once, delivered results only grow |
| ManagedRuns.SlotsAreLiveLeases | crates/muxiva-core/src/admission.rs:58-138 | occupied slots are exactly the leases of callers, of requests nobody has claimed, and of winners between winning and giving back, never more than there are |
| ManagedRuns.CompletedIsTheSum | crates/muxiva-core/src/managed_stream.rs:1056-1092 | whenever no winner is between its two metric updates, completed is the sum of the five outcome counts |
| ManagedRuns.CompletedCountsWinners | crates/muxiva-core/src/managed_stream.rs:592-610 | completed counts exactly the requests whose winner has counted itself, and each of them has given its lease back |
| ManagedRuns.FlagMeansTargeted | crates/muxiva-core/src/managed_stream.rs:592-596 | a request carries the cancellation flag only if a cancel or the stop targeted it |
| ManagedRuns.RunKeepsInv | crates/muxiva-core/src/managed_stream.rs:700-935 | every state of every run satisfies the stream invariant |
| ManagedRuns.StepKeepsInv | crates/muxiva-core/src/managed_stream.rs:700-935 | every step of callers, workers and executor keeps it |
| ManagedSteps.CloseKeeps | crates/muxiva-core/src/managed_stream.rs:655-698 | stopping clears the mailbox and releases only leases nobody can claim any more |
| ManagedSteps.SubmitKeeps | crates/muxiva-core/src/managed_stream.rs:403-457 | submission, refused or accepted, keeps the invariant and accounts for its lease |
| ManagedSteps.WorkerKeeps | crates/muxiva-core/src/managed_stream.rs:1056-1092 | a finishing worker keeps the invariant; it wins an undecided request with its own outcome, or with a failure if it has none, and leaves a decided one as it is |
| ManagedSteps.FinishCancelKeeps | crates/muxiva-core/src/managed_stream.rs:592-600 | finishing a cancellation, winning or losing, keeps the invariant |
| ManagedExecutor.ProcessKeeps | crates/muxiva-core/src/managed_stream.rs:716-747 | retiring a completion keeps the invariant in both orderings |
| ManagedExecutor.SweepKeeps | crates/muxiva-core/src/managed_stream.rs:749-782 | the cancellation and timeout sweep keeps the invariant |
| ManagedExecutor.AdmitKeeps | crates/muxiva-core/src/managed_stream.rs:844-914 | popping, timing out or launching a request keeps the invariant and the window |
| ManagedExecutor.StrictRoundKeeps | crates/muxiva-core/src/managed_stream.rs:811-837 | handing on the head keeps the invariant |
| ManagedLoops.DeliverOrdered | crates/muxiva-core/src/managed_stream.rs:811-837 | the delivery loop consumes exactly the resolved requests from the head on, delivers exactly their results in order, and stops only at an unresolved head or a full mailbox |
| ManagedLoops.AdmitAll | crates/muxiva-core/src/managed_stream.rs:844-914 | the admission loop takes requests from the front of the input until none is left or the window is full |
| ManagedLoops.SegmentProlongsRun | crates/muxiva-core/src/managed_stream.rs:700-935 | what the loops do is a prolongation of a run, so everything proved of runs holds after them |
| ManagedLoops.AdmissionStopsWhenFull | crates/muxiva-core/src/managed_stream.rs:844-860 | admission stops only at an empty input or a full window |
| ManagedPark.CancellationMissedIff | crates/muxiva-core/src/managed_stream.rs:461-476 | while the executor is parked and no cancellation of it is under way, an unresolved active request is flagged exactly when the run holds this round's sweep of it, which saw no flag, then a cancellation's flag, then a cancellation's notification, before the executor parked and with no restart of it in between |
| ManagedPark.CancellationCanBeMissed | crates/muxiva-core/src/managed_stream.rs:749-782 | a run in which the cancelled head stalls: parked, flagged, unresolved, with neither a notification nor a deadline left to wake the executor |
| ManagedPark.StallEndsWithTheWorker | crates/muxiva-core/src/managed_stream.rs:1149-1160 | such a request's worker is still out, and its completion restarts the executor |
| ManagedPark.RestartResolves | crates/muxiva-core/src/managed_stream.rs:716-782 | on every run, once a request is flagged, every round the executor starts afterwards has it resolved by the time the round delivers or parks |
| ManagedPark.CleanHasSweep | crates/muxiva-core/src/managed_stream.rs:749-782 | a request the round has found clean was passed, unflagged, by that very round's sweep |
| ManagedPark.ParkedIsDone | crates/muxiva-core/src/managed_stream.rs:905-935 | a parked executor has nothing posted, nothing deliverable and nothing admissible left: its input is empty or its window, spelled out, is full; submissions, completions and taken results are never missed |
| ManagedPark.StopIsNeverMissed | crates/muxiva-core/src/managed_stream.rs:655-698 | while the executor of a closed stream is parked, the stop has its notification still to give |
| ManagedPark.DeadlineIsNeverMissed | crates/muxiva-core/src/managed_stream.rs:914-935 | while some active request is undecided, a parked executor has a deadline that can wake it |
| ManagedPark.RunKeepsPark | crates/muxiva-core/src/managed_stream.rs:700-935 | every state of every run satisfies the invariant of the executor's rounds and its park |
| ManagedPark.StepKeepsPark | crates/muxiva-core/src/managed_stream.rs:700-935 | every step of callers, workers and executor keeps it |
| ManagedWorker.RunRequest | crates/muxiva-core/src/managed_stream.rs:987-1055 | the first attempt that does not ask for another decides, within the limit; no result only after an observed cancellation; retry exhaustion only after every attempt was answered retryably; attempts, retries and reconnects are exact |
| ManagedWorker.WorkerResultIsPossible | crates/muxiva-core/src/managed_stream.rs:1056-1092 | what a worker returns is a result the stream model lets it finish with |
| AdmissionControl.AdmissionSlots.New | crates/muxiva-core/src/admission.rs:41-55 | refuses exactly a zero capacity |
| AdmissionControl.AdmissionSlots.TryAcquire | crates/muxiva-core/src/admission.rs:58-70 | fails exactly when closed or full, otherwise adds one fresh live lease; occupied slots always equal live leases |
| AdmissionControl.AdmissionSlots.Close | crates/muxiva-core/src/admission.rs:94-98 | stops new leases and leaves live ones alone |
| AdmissionControl.AdmissionLease.Release | crates/muxiva-core/src/admission.rs:119-138 | gives the slot back exactly once |
| ForeignRuns.StrictRelease | crates/muxiva-core/src/foreign.rs:397-549 | while not stopping, accepted calls equal delivered ones followed by the strict order, and the ready queue holds at most its head, for every completion order |
| ForeignRuns.CallsAreConserved | crates/muxiva-core/src/foreign.rs:397-549 | in either ordering every accepted call was delivered or is live, exactly once |
| ForeignRuns.StopCancelsOnce | crates/muxiva-core/src/foreign.rs:667-714 | over a whole run each call is sent at most one Cancel, and after stop every remaining call is dispatched and cancelled |
| ForeignCalls.StopCancelsWhatIsOut | crates/muxiva-core/src/foreign.rs:667-714 | the calls told to cancel, once, over any continuation, are exactly those in the domain's hands when the driver stops, whichever operation stops it |
| ForeignCalls.HandedOutStaysLive | crates/muxiva-core/src/foreign.rs:455-468 | a call whose command was handed out while it was open stays live until it is taken, completed late, failed by its own completion or acknowledged; after a stop exactly these calls are waited for |
| ForeignCalls.BothWaysInOrder | crates/muxiva-core/src/foreign.rs:455-550 | controls reach the domain in the order they were issued; while the driver runs, commands reach it in the order they were submitted, each once and as submitted, and without strict ordering completions are taken in the order they were given |
| ForeignCalls.ControlsComeFirst | crates/muxiva-core/src/foreign.rs:455-468 | no command is handed out while a control waits, and nothing only if nothing waits |
| ForeignCalls.StopTellsReason | crates/muxiva-core/src/foreign.rs:552-598 | the reason of a stop is that of the operation that stops the driver, and the domain is told it, then Stop |
| ForeignAccounts.AnswersAreConserved | crates/muxiva-core/src/foreign.rs:470-550 | while the driver runs, in either ordering, the completions answered are those taken and those buffered, payloads included, and the byte accounts are exact |
| ForeignAccounts.SubmitAcceptedIff | crates/muxiva-core/src/foreign.rs:397-452 | told by what was submitted, handed out and delivered, a running driver accepts a command exactly if its call is not open, it is next in the strict order, and calls, commands and bytes have room |
| ForeignAccounts.CompleteAcceptedIff | crates/muxiva-core/src/foreign.rs:470-533 | a running driver accepts a completion exactly if its call is open and unanswered, and it is a failure or the completions answered and not taken leave room for it |
| ForeignAccounts.ExpireStopsIff | crates/muxiva-core/src/foreign.rs:552-569 | time stops a running driver exactly if some open call was accepted at least a call's deadline ago |
| ForeignAccounts.TotalsAreExact | crates/muxiva-core/src/foreign.rs:470-569 | the totals are those of completions answered as late, and of Cancel controls issued together with the calls each expiry finds due |
| ForeignRuns.StoppingIsFinal | crates/muxiva-core/src/foreign.rs:480-623 | after stopping nothing is accepted or delivered, live calls only shrink, the first reason is kept and taken at most once |
| ForeignRuns.GracefulStopIsIdle | crates/muxiva-core/src/foreign.rs:584-598 | a stop without a reason found and leaves no live call and never yields a reason |
| ForeignRuns.NoCommandAfterStop | crates/muxiva-core/src/foreign.rs:455-468 | if the domain completes only what it received, a stopping driver hands out no ordinary command |
| ForeignRuns.StopHandsOutIff | crates/muxiva-core/src/foreign.rs:455-598 | for every operation that stops the driver, a graceful stop included: some ordinary command can be handed out afterwards exactly when before it some queued command belongs to no live undispatched call, or to the call a failing completion answers |
| ForeignRuns.StopLeaves | crates/muxiva-core/src/foreign.rs:584-690 | the commands such an operation leaves are exactly those of calls it does not take back |
| ForeignRuns.UndisciplinedCommandSurvives | crates/muxiva-core/src/foreign.rs:470-598 | a concrete run whose undispatched command is handed out after a graceful stop, right behind the Stop control |
| ForeignRuns.RunKeepsInv | crates/muxiva-core/src/foreign.rs:397-725 | bounds, byte accounts, buffers and strict order stay consistent on every run |
| ForeignRuns.RunBalances | crates/muxiva-core/src/foreign.rs:397-549 | accepted, delivered and live calls balance on every run |
| ForeignDriver.StepKeeps | crates/muxiva-core/src/foreign.rs:397-725 | every operation keeps bounds, byte accounts, buffers and strict order |
| ForeignDriver.PromoteKeeps | crates/muxiva-core/src/foreign.rs:716-725 | promotion restores the head condition of strict release |
| ForeignDriver.FailKeeps | crates/muxiva-core/src/foreign.rs:667-714 | failing keeps the invariant, first or repeated |
| ForeignGate.ForeignNodeDriver.FailLocked | crates/muxiva-core/src/foreign.rs:667-714 | dropping undispatched calls and cancelling the rest, loop by loop, ends in the specified state |
| ForeignGate.ForeignNodeDriver.DropUndispatched | crates/muxiva-core/src/foreign.rs:680-688 | the loop removes exactly the undispatched calls from the live table and the strict order |
| ForeignGate.ForeignNodeDriver.CancelRemaining | crates/muxiva-core/src/foreign.rs:689-700 | the loop marks every remaining call and sends each one Cancel, in sequence order, unless it was sent before |
| ForeignGate.ForeignNodeDriver.PromoteStrict | crates/muxiva-core/src/foreign.rs:716-725 | the promotion loop moves at most the head |
| GraphOrder.StableTopologicalOrder | crates/muxiva-core/src/graph.rs:712-770 | an order exactly when there is no directed cycle; then it is topological and lexicographically least; otherwise the reported set is exactly the nodes on or reachable from a cycle |
| GraphOrder.GreedyIsLeast | crates/muxiva-core/src/graph.rs:736-758 | no topological order is smaller than always placing the smallest ready node |
| GraphOrder.GreedyIsTopological | crates/muxiva-core/src/graph.rs:736-758 | that order is a permutation of the nodes with every edge pointing forward |
| GraphOrder.OrderIsCanonical | crates/muxiva-core/src/graph.rs:712-758 | the order depends only on which nodes are adjacent, not on edge names, parallel edges or insertion order |
| GraphOrder.LeftoversAreTainted | crates/muxiva-core/src/graph.rs:760-768 | what the sort leaves unplaced is exactly what lies on or behind a cycle |
| GraphOrder.Tabulate | crates/muxiva-core/src/graph.rs:716-735 | indegrees and target lists count every edge once, parallel edges included |
| GraphOrder.TabulateEdge | crates/muxiva-core/src/graph.rs:716-735 | one edge is counted at its target and listed at its source |
| GraphOrder.Release | crates/muxiva-core/src/graph.rs:744-757 | placing a node removes each of its edges once and makes ready exactly the targets that reach zero |
| GraphOrder.ReleaseEdge | crates/muxiva-core/src/graph.rs:746-757 | one outgoing edge is counted off and its target joins the ready set exactly when nothing else holds it back |
| GraphOrder.PlaceSmallest | crates/muxiva-core/src/graph.rs:740-758 | one round keeps the sort's invariant and places one node |
| GraphBuilding.GraphBuilder.AddNode | crates/muxiva-core/src/graph.rs:450-469 | accepts exactly well-formed descriptors with a new id |
| GraphBuilding.GraphBuilder.Connect | crates/muxiva-core/src/graph.rs:471-489 | accepts exactly edges with a new id that join an existing output to an existing input of the same type |
| GraphBuilding.GraphBuilder.Build | crates/muxiva-core/src/graph.rs:523-532 | a graph exactly when acyclic, with the least order; otherwise exactly the tainted nodes |
| GraphBuilding.ValidateNode | crates/muxiva-core/src/graph.rs:534-577 | no error exactly when every port fits the node's kind and is unique |
| GraphBuilding.ValidateEdge | crates/muxiva-core/src/graph.rs:585-653 | no error exactly when both ends exist, have the direction needed, and agree with the edge's type |
| GraphBuilding.FirstPort | crates/muxiva-core/src/graph.rs:655-702 | finds a port exactly when one of that name and direction exists |
| GraphBuilding.EdgePointsForward | crates/muxiva-core/src/graph.rs:712-758 | in a topological order every edge leads to a strictly later position |
| GraphBuilding.TargetIsNoSource | crates/muxiva-core/src/graph.rs:534-577 | no accepted edge ends at a source node |
| GraphBuilding.BuiltGraphIsWellFormed | crates/muxiva-core/src/graph.rs:523-532 | a built graph laid out by its order meets what the concurrent runtime assumes |
| GraphBuilding.BuiltGraphIsAcyclic | crates/muxiva-core/src/graph.rs:523-532 | and what the synchronous runner's termination rests on |
| SyncRunner.GraphRunner.Run | crates/muxiva-core/src/runner.rs:243-269 | runs once; always returns, within the budget of process calls; succeeds exactly if no answer in its log is a failure, the log being the behaviour's own answers up to the first failure; up to there every emission was checked and shown to every enabled edge of its port, in order; success means all prepared in order, every source called in order, all finished in reverse, and processed frames equal delivered frames in order; failure means exactly the prepared nodes aborted in reverse |
| SyncRunner.GraphRunner.Execute | crates/muxiva-core/src/runner.rs:291-323 | prepares in order, runs every source, finishes in reverse, stopping at the first failure |
| SyncRunner.GraphRunner.RunSource | crates/muxiva-core/src/runner.rs:307-316 | the worklist of one source runs dry within its budget, first in first out |
| SyncRunner.GraphRunner.Next | crates/muxiva-core/src/runner.rs:311-315 | processing one item takes it from the front, appends what it causes, and lowers the weight of the worklist |
| SyncRunner.GraphRunner.Process | crates/muxiva-core/src/runner.rs:352-382 | one callback, cut off at the emission limit, adds exactly what routing makes of its emissions, and the log goes on telling of every answer |
| SyncRunner.GraphRunner.CallProcess | crates/muxiva-core/src/runner.rs:352-382 | the callback itself and the routing of its emissions, within the weight of its item |
| SyncRunner.GraphRunner.RouteEdges | crates/muxiva-core/src/runner.rs:448-458 | an accepted emission goes along every enabled edge of its port, in order, up to the first abort |
| SyncEvents.CalledTells | crates/muxiva-core/src/runner.rs:307-461 | what follows a process callback goes on exactly if the callback succeeded and no check and no policy failed, stops at the first failure, and up to there checks every emission and shows it to every enabled edge of its port, in order |
| SyncEvents.ProcessSounds | crates/muxiva-core/src/runner.rs:307-316 | appending it keeps the log sound: honest, ended by its first failure, and telling of every call and delivery |
| SyncEvents.PrepareSounds | crates/muxiva-core/src/runner.rs:293-296 | so does the answer of a prepare callback |
| SyncEvents.FinishSounds | crates/muxiva-core/src/runner.rs:319-322 | and that of a finish callback |
| SyncEvents.SoundIsClean | crates/muxiva-core/src/runner.rs:252-269 | a sound log went on to the end exactly if it holds no failure; otherwise its last answer, and no other, is one |
| SyncEvents.VerdictIs | crates/muxiva-core/src/runner.rs:463-625 | an edge aborts, delivers or consumes a frame exactly as its type gate, validation, transform and notification answers say |
| SyncRunner.GraphRunner.RouteEmissions | crates/muxiva-core/src/runner.rs:411-461 | emissions are routed in order up to the first abort, only to strictly later nodes, boundedly many |
| SyncRunner.GraphRunner.RouteOne | crates/muxiva-core/src/runner.rs:421-458 | one emission goes along the enabled edges of its port; an undeclared port or wrong type aborts |
| SyncRunner.GraphRunner.AbortAllPrepared | crates/muxiva-core/src/runner.rs:716-744 | abort hooks run for exactly the prepared nodes, each once, in reverse order |
| SyncRunner.ProcessingPays | crates/muxiva-core/src/runner.rs:299-316 | everything one callback adds, and the callback itself, is paid for by the weight of its own item |
| SyncRunner.BudgetIsBounded | crates/muxiva-core/src/runner.rs:299-316 | the number of process calls is bounded by the number of sources times the reach of the whole depth |
| SyncRouting.OnlyTypedFramesPass | crates/muxiva-core/src/runner.rs:463-625 | whatever a policy answers, only frames of the edge's type come through, and a changed frame has a new id |
| SyncRouting.ItemsFollowEdges | crates/muxiva-core/src/runner.rs:448-458 | every delivered item came along an enabled edge of its port and has that edge's type |
| SyncRouting.PlainEdgesCopy | crates/muxiva-core/src/runner.rs:448-458 | without policies the frame itself goes along every enabled edge of its port once, in edge order |
| EdgeQueueRuns.QueueIsFifo | crates/muxiva-core/src/queue.rs:188-296 | on every run the queue holds exactly the accepted entries that have not left, in order with their own timestamps, within capacity, and consumers received the delivered ones in order |
| EdgeQueueRuns.PushAnswerIs | crates/muxiva-core/src/queue.rs:188-238 | a push is answered closed exactly after some close, taken in if fewer frames than the capacity are accepted and not gone, and otherwise as the overflow policy says |
| EdgeQueueRuns.PopAnswerIs | crates/muxiva-core/src/queue.rs:241-271 | a pop gets the oldest accepted frame that is not gone; if there is none, the end after a close and nothing before |
| EdgeQueueRuns.WatermarkIsPeak | crates/muxiva-core/src/queue.rs:348-358 | the high watermark is the most frames the queue has ever held |
| EdgeQueueRuns.FullTotalIsExact | crates/muxiva-core/src/queue.rs:188-238 | the full total counts, up to saturation, the pushes that found the open queue full |
| EdgeQueueRuns.CountersAreExact | crates/muxiva-core/src/queue.rs:324-391 | the saturating totals count accepted, delivered and dropped frames, policy drops among them, exactly up to saturation |
| EdgeQueueRuns.MeasuresAreExact | crates/muxiva-core/src/queue.rs:348-384 | payload and audio totals are the sums over everything ever accepted, up to saturation |
| EdgeQueueRuns.FramesAreConserved | crates/muxiva-core/src/queue.rs:324-391 | enqueued = dequeued + resident + evicted + discarded; the drop total is evicted + discarded + refused + policy drops |
| EdgeQueueRuns.BlockAndDrainLoseNothing | crates/muxiva-core/src/queue.rs:188-296 | a blocking queue that is only drained has delivered or still holds every accepted frame, in order |
| EdgeQueueRuns.NothingAcceptedAfterClose | crates/muxiva-core/src/queue.rs:274-296 | once closed a queue accepts nothing, whatever follows |
| EdgeQueueRuns.NothingReceivedAfterDiscard | crates/muxiva-core/src/queue.rs:274-296 | once closed and emptied it never yields another frame |
| EdgeQueueModel.EdgeQueue.Push | crates/muxiva-core/src/queue.rs:188-238 | one pass of push under each overflow policy, with its whole new state |
| EdgeQueueModel.EdgeQueue.TryPop | crates/muxiva-core/src/queue.rs:260-271 | takes the oldest frame, or tells empty from closed |
| EdgeQueueModel.EdgeQueue.RecordDrop | crates/muxiva-core/src/queue.rs:324-328 | a policy drop is added to the drop total and changes nothing else |
| EdgeQueueModel.EdgeQueue.Close | crates/muxiva-core/src/queue.rs:274-296 | closes monotonically, discarding only on request |
| EdgeQueueModel.EdgeQueue.Enqueue | crates/muxiva-core/src/queue.rs:348-358 | appends frame and timestamp together and updates the totals and the high watermark |
| FlowRuns.LoadIsConserved | crates/muxiva-core/src/flow.rs:224-358 | on every run without counter overflow, whatever the clock does: everything that arrived is queued, in flight, finished or dropped, in frames, bytes and media, and in-flight totals are the sums over the works still held plus what was stranded |
| FlowRuns.MediaIsConserved | crates/muxiva-core/src/flow.rs:224-358 | with a monotone clock nothing is stranded: in-flight totals are the sums over active admissions and input media = queued + in flight + completed + dropped |
| FlowRuns.GenuineCompletionSucceeds | crates/muxiva-core/src/flow.rs:299-325 | on such runs the guards beyond the admission set never refuse a genuine completion |
| FlowRuns.CompletionBalancesIff | crates/muxiva-core/src/flow.rs:299-325 | a completion keeps the in-flight totals equal to the sums exactly when the clock has not run behind the admission |
| FlowRuns.StrandedForGood | crates/muxiva-core/src/flow.rs:299-325 | what a backwards clock strands stays counted as in flight on every continuation |
| FlowRuns.BackwardsClockStrandsTheLoad | crates/muxiva-core/src/flow.rs:299-325 | a concrete run that strands the load of its only frame |
| FlowRuns.LosslessNeverDrops | crates/muxiva-core/src/flow.rs:327-358 | over any sequence of events a valid lossless port never records a drop and never decides on one |
| FlowRuns.LosslessKeepsAll | crates/muxiva-core/src/flow.rs:224-358 | so on it everything that arrived is queued, in flight or finished |
| FlowHysteresis.OverloadEndsOnlyInNormal | crates/muxiva-core/src/flow.rs:422-440 | over any sequence of events, refused ones included, critical never steps down to pressure, the normal state carries no healthy samples, and fewer than three are ever carried |
| FlowHysteresis.ResumeNeedsThreeHealthy | crates/muxiva-core/src/flow.rs:422-440 | every resume is the third healthy evaluation of a stretch of one overload that holds nothing but healthy evaluations and escalations |
| FlowHysteresis.ThreeHealthyResume | crates/muxiva-core/src/flow.rs:422-440 | three healthy evaluations in a row always leave the port normal at one of them |
| FlowHysteresis.SignalsAlternate | crates/muxiva-core/src/flow.rs:441-493 | emitted signals alternate starting with pressure, the last one tells whether the port is overloaded, and the history is their bounded tail |
| FlowHysteresis.HardLimitAfterAnyEvent | crates/muxiva-core/src/flow.rs:397-481 | whichever event leads to a hard limit, the state becomes critical and admissions are limited to none |
| FlowHysteresis.HardLimitIsCritical | crates/muxiva-core/src/flow.rs:397-481 | an evaluation at a hard limit ends critical, limits admissions to zero and never resumes them |
| FlowHysteresis.HealthyWantsNormal | crates/muxiva-core/src/flow.rs:400-426 | a healthy evaluation wants the normal state |
| FlowLevels.LoadDecidesState | crates/muxiva-core/src/flow.rs:397-439 | after any accepted event of a valid profile: a normal port stays normal exactly below three quarters of every limit with saturation further than a deadline away; a port short of critical becomes critical exactly at a full limit or half a deadline from saturation; a critical one never eases to pressure; none resumes at half a limit or more |
| FlowLevels.DesiredIs | crates/muxiva-core/src/flow.rs:401-426 | the model's integer comparisons are exactly those of the shares of the limits |
| FlowAnswers.FramesAreAnswered | crates/muxiva-core/src/flow.rs:224-358 | on a run with a monotone clock and within the counters every frame is taken in, and one is admitted or dropped exactly if it is among those queued and, to be dropped, the port is not lossless |
| FlowAnswers.EventsTellState | crates/muxiva-core/src/flow.rs:441-483 | every accepted event is answered with exactly the actions of the state it leads to |
| FlowHysteresis.RunIsSteady | crates/muxiva-core/src/flow.rs:397-493 | over any sequence of events, whatever the clock and the counters do, the healthy count is the length of the current streak and the history is consistent with the state |
| FlowControl.AdaptiveFlowController.New | crates/muxiva-core/src/flow.rs:186-218 | an invalid profile yields its first fault and no controller |
| FlowControl.AdaptiveFlowController.RecordEnqueue | crates/muxiva-core/src/flow.rs:224-255 | the whole new state and reply, including what an overflow leaves half done |
| FlowControl.AdaptiveFlowController.RecordAdmission | crates/muxiva-core/src/flow.rs:257-297 | the same for admissions, with a fresh admission id |
| FlowControl.AdaptiveFlowController.RecordCompletion | crates/muxiva-core/src/flow.rs:299-325 | the same for completions, including the admission forgotten on a refusal |
| FlowControl.AdaptiveFlowController.RecordDrop | crates/muxiva-core/src/flow.rs:327-358 | the same for drops, refused on lossless ports |
| FlowControl.AdaptiveFlowController.Evaluate | crates/muxiva-core/src/flow.rs:397-483 | the state, healthy count, signals and actions after one evaluation |
| FlowControl.AdaptiveFlowController.Advance | crates/muxiva-core/src/flow.rs:427-447 | the transition of one evaluation and the signal it records |
| FlowControl.AdaptiveFlowController.Advise | crates/muxiva-core/src/flow.rs:448-477 | the actions asked for in a state |
| FlowControl.AdaptiveFlowController.RecordSignal | crates/muxiva-core/src/flow.rs:485-493 | records only for a pausable upstream, forgetting the oldest of 64 |
| FlowControl.AdaptiveFlowController.Sample | crates/muxiva-core/src/flow.rs:383-391 | evaluates without inventing work |
| RealtimeProfile.ValidDecisionIsPermitted | crates/muxiva-core/src/flow.rs:361-376 | a valid profile drops only on best-effort relaxed ports, propagates backpressure only to a pausable upstream, and drops silence only from a trusted observation it permits |
| RealtimeProfile.ValidProfileIsBounded | crates/muxiva-core/src/realtime.rs:137-229 | a valid profile has positive bounded limits and a merge window inside the accepted range |
| RealtimeProfile.ValidIff | crates/muxiva-core/src/realtime.rs:137-229 | a profile is valid exactly if every limit is within its bounds, audio durations are given where audio is permitted, and the overflow policy can be obeyed |
| AudioTiming.DurationIsExact | crates/muxiva-core/src/audio_merge.rs:128-140 | the duration is the exact quotient rounded down whenever that fits 64 bits, and an error otherwise |
| AudioTiming.PipelineIsExact | cpp/media/src/media_pipeline.cc:74-93 | the pipeline's duration is the same quotient exactly when input and output fit 63 bits |
| AudioTiming.MeasurementIsExact | crates/muxiva-core/src/queue.rs:360-370 | the queue's measurement is exact until its product saturates, and never too large |
| AudioTiming.ImplementationsAgree | crates/muxiva-core/src/audio_merge.rs:128-140 | all three agree wherever they answer without saturation |
| AudioTiming.RoundingLoss | crates/muxiva-core/src/audio_merge.rs:117-126 | adding rounded durations may fall behind the rounded total, by at most one nanosecond per addition |
| AudioTiming.DistanceIsExact | cpp/media/src/media_pipeline.cc:95-99 | the wrapping unsigned subtraction is the true distance over the whole signed range |
| AudioMerge.MergePrefix | crates/muxiva-core/src/audio_merge.rs:35-98 | returns exactly the merge if there is one, nothing if there is none, and an error exactly for unusable durations or an overflow met on the way |
| AudioMerge.MergeIsUnique | crates/muxiva-core/src/audio_merge.rs:54-87 | at most one prefix length is a merge |
| AudioMerge.MergeIsDriftFree | crates/muxiva-core/src/audio_merge.rs:100-115 | every frame of a merge starts where the exact duration of those before it ends, with the same format and consecutive sequence numbers |
| AudioMerge.SampleBoundary | crates/muxiva-core/src/audio_merge.rs:117-126 | the boundary timestamp is exact, or an error exactly when it does not fit |
| MediaPipeline.TimelineIsTiled | cpp/media/src/media_pipeline.cc:176-314 | on every run each frame starts at the exact end of the one before unless it was asked for beyond the tolerance, no end overflows, and every break is counted |
| MediaPipeline.NearRequestsLeaveNoGap | cpp/media/src/media_pipeline.cc:234-258 | a request within the tolerance is put exactly at the end of its predecessor |
| MediaPipeline.FlushedStreamStaysClosed | cpp/media/src/media_pipeline.cc:195-202 | after a flush of a started stream no conversion succeeds until a reset |
| MediaPipeline.SizeIsExact | cpp/media/src/media_pipeline.cc:32-55 | the guarded size products accept exactly the sizes that fit, and compute them |
| MediaAnswers.ConvertedIff | cpp/media/src/media_pipeline.cc:176-260 | a conversion succeeds exactly if the view is good and of the stream's own specs, the stream was not flushed since its reset, and the backend answers with nothing or with a frame of the output spec, of exact size within the limit, whose end fits; the frame is then put on the timeline or where it was asked |
| MediaAnswers.FlushedIff | cpp/media/src/media_pipeline.cc:263-314 | a flush succeeds exactly if it names the stream's output spec, or any valid one before there is one, and the backend answers well; its frame continues the timeline |
| MediaAnswers.CountersAreExact | cpp/media/src/media_pipeline.cc:176-314 | the counters of refusals, failures and bytes are those of the answers given |
| MediaPipeline.PlaceIsExact | cpp/media/src/media_pipeline.cc:245-258 | placing a frame moves the timeline to its exact end, or fails exactly when that does not fit |

## Left out

- CLI, doctor, Studio, bootstrap server, release and documentation scripts: input, output and presentation.
- The C ABI and language bindings, library loading, and the FFmpeg backend: layouts and foreign calls; the media backend is an arbitrary answer here.
- Real threads, weak memory and spurious wake-ups: an interleaving of atomic steps stands for them; a condition-variable wait ends only by its notification or its timeout.
- Panics in callbacks count as failed callbacks; a thread that cannot be started is not modelled in the concurrent runtime.
- Wall-clock values, deadlines and timers are arbitrary inputs. Termination of the concurrent runtime is stated between expiries of timers, because a callback may ask for a tick again and again.
- Rate estimates and predictions of the flow controller, and floating-point rounding of its ratios: a prediction is an arbitrary input and ratios are compared exactly.
- Wake-up generations and metric totals of the managed stream are unbounded here; the source wraps or saturates them at 64 bits. Flow and queue counters keep their 64-bit behaviour.
- Request registrations of the managed stream: a cancel may target any accepted request that has not been dropped, which includes every call the registrations allow.
- The order of completions within one drain of the managed stream is arbitrary here.
- The sweep and the admission of the managed stream read a request's cancellation flag and claim it in one step; a cancellation between the two has the effect of one right before or right after.
- Response-size limits and adapter payloads of the managed stream: a response fits or does not.
- The blocking variants pop, recv_timeout, acquire and wait_drained: they repeat the pass modelled here until it succeeds.
- In-place update and aliasing in the concurrent runtime and the managed stream: their shared state is a value that steps replace, so that all threads can be interleaved; the objects around them are classes.
- The signal queue as an object of its own: it is part of every edge in the concurrent runtime model.
- The time a producer spends blocked, edge metrics text, observers, notification bus, resource store, custom metrics, error messages and the human-readable graph printer: diagnostic.
- Graph node configuration and factory selection: stored and returned unchanged.
- Named edge policies of the concurrent runtime appear as arbitrary answers (forward, drop, fail); their branch structure is modelled in the synchronous runner.
- The construction of the merged audio frame from its parents: only which parents are merged is modelled.
- Lineage attached to replaced frames: a failure to attach it is a failing policy here.
- The video half of the media pipeline and its busy flag.
- RuntimeTheorems.SignalsPrecedeFrames: speaks of acceptance by the signal queues; a consumer scans signals and frames one after the other, so it may handle a frame first.
- ManagedRuns.PassedMeansDelivered: speaks only of requests no cancel targeted, because a cancel that loses the race still suppresses the result.
- RuntimeProgress.OwnStepsAreBounded: supposes an emission budget, as the runtime has one, but does not model the abort of a callback that exceeds it.
- ForeignRuns.StopCancelsOnce: bounds Cancel controls per call; Stop controls and the cancellation total may repeat when deadlines expire after a stop.
