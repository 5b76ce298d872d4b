# Maintenance controller: a verified model

The maintenance controller diagnoses incidents, repairs them with isolated agent runs, publishes the results on GitHub and
resumes reviews that ran out of provider quota. It may crash between any two durable writes. This project models its
transactional store, the steps its service and its operators take over that store, and the worlds every run of those steps
can reach. It proves what those worlds keep. Four smaller components of the same repository follow: the worker supervisor, the
gateway's metering loop, the alias resolver and merge-plan validator of the prompt evaluation, and the agent loop's governor.

## How it is laid out

The tables are one value, `Tables.Db`, which a transaction replaces at once. Each operation appears twice: as a function from
tables to tables, in the module of its component, and as a method of a class that changes the tables in place with the loops
and branches of the source (`State.dfy`, `ReviewQueue.dfy`, `Conversation.dfy`, `Controller.dfy`, and the classes in
`Effects.dfy` and `Notifications.dfy`). The method's contract equates the two. Lemmas are about the functions.

- `Contracts`, `JobStore`, `LaunchWindows`, `ProviderQuota`, `Tables`: limits, the `jobs` table with its mirrored columns, the
  rolling allowances, the shared quota, and the tables together.
- `Scheduling`, `Dispatching`, `Events`, `ReviewResumption`, `OwnerComments`, `Lifecycle`, `Preparation`: the operations.
- `Runs`: the world (tables, process, clock, reruns requested, agents started) and its steps: operator commands, service
  steps, the clock, a crash and a restart. A crash drops what the process holds and keeps the tables.
- `JobChanges`, `Leases`, `Budgets`, `Pacing`, `Exclusion`, `History`, `Recovery`, `Allowance`, `Overlap`, `Repairs`,
  `Reruns`: what every run keeps, and when it does not.
- `Launches`, `RunEnds`, `Turns`, `Passes`, `Decisions`, `Diagnoses`, `ReviewRecords`, `QuotaHolds`: what each operation does,
  said of the stored documents and apart from the functions that define it, and what follows for whole runs.
- `Effects`, `Notifications` with `Deliveries`: the effect journal and the notification table, each with its own runs.
- `WorkerSupervision`, `StreamMetering` with `UsageLines` and `QuotaErrors`, `MemoryAliases`, `MergePlans`, `AgentGovernor`: the
  independent components.

GitHub, the runner and the transport are answers that a step receives: any answer, in any order, lost, late or raising. A
missing answer stands for a call that raises. Since a raise abandons a poll wherever it happens, it also stands for a crash
there. A run's end may lose its last write, and a restart may die after any of its writes. Steps of the controller that
change one job's fields (publishing, polling reviews, retrying) are the step `EditJob`, with any values the call sites allow,
so the invariants cover them all.

Assumptions of every run: job ids are fresh; the clock does not go back; there is one controller process; `fingerprint` is
injective. Three more are hypotheses only of the results that need them: one comment listing shows a comment once
(`CommentPollsAreDurable`), a pull request's newest check never gets older (`RerunsNeverRepeat`), and a search finds only what
was applied (`DoneMeansApplied`).

## Where the obvious statement is false

- A cancelled job keeps its lease until its agent stops, and both gates of the shared quota look at statuses. So a review rerun
  can start beside a live agent. `Overlap.CancelledAgentMeetsReview` reaches that world from an empty installation,
  `Overlap.OverlapConditionIsExact` gives the condition, and `Overlap.MarkedRunsNeverOverlap` says when it cannot happen.
- An issue can have two active repair jobs. `enqueue` never makes a second one, but a repair that has come to rest can be
  opened again beside the one an event made meanwhile: by review feedback or a quota wait on a `ready` pull request, by an
  owner's decision to continue, or because it was closed while its agent was still working.
  `Repairs.StepKeepsOneActiveExactly` and `Repairs.OneRepairUnlessDisputed` give the condition for every step and every run,
  and `Repairs.ReadyRepairReturnsBesideAnother` reaches such a world from an installation.
- `defer_provider` recognises a repetition only of the latest source: `ProviderQuota.OnlyLatestSourceRepeats`.
- Token totals can depend on how a stream is cut once a line reports the quota exhausted: `StreamMetering.TotalsDiffer` shows
  it, and `StreamMetering.CutsAgreeExactly` says exactly when they do not, for chunks of the size the gateway reads.
- A check can be rerun twice if a pull request's head goes back to an older commit: `Reruns.OlderCheckIsRerunAgain`. While
  newest checks do not go back, it cannot: `History.RerunsNeverRepeat`.
- A storage id in an extraction answer is kept only if it is not also a number of the prompt:
  `MemoryAliases.StorageIdsReturnExactly`.
- `claim` itself does not look at owner holds. The hold is a gate of `prepare_run`, and
  `Exclusion.AgentsStartOnlyWhenClear` holds of the whole step.
- In a merge plan `true` and `false` pass for the indexes 1 and 0, and a list as a survivor index raises instead of being
  reported: `MergePlans.AcceptedExactly` covers both.

## Model

| member | source | states |
|---|---|---|
| JobStore.QueriesRefineFullScan | tools/maintenance/state.py:170-181 | every column query (by status, by issue, unfinished) lists exactly what filtering the decoded documents would, in the same order |
| JobStore.SelectFinds | tools/maintenance/state.py:170-181 | a query lists a job if and only if the job's current document satisfies it |
| JobStore.SaveStores | tools/maintenance/state.py:154-163 | a save keeps columns and documents in agreement, stores the settled document, and leaves every other job as it was |
| JobStore.UpdateStores | tools/maintenance/state.py:183-188 | an update changes one stored document; an unknown id changes nothing |
| JobStore.SaveMovesLast | tools/maintenance/state.py:162-163 | each listing after a save is the old listing without the job, in its order, and then the job |
| JobStore.KeptKeepsOrder | tools/maintenance/state.py:170-181 | filtering documents keeps them at increasing places and misses none |
| JobStore.CancellationAbsorbs | tools/maintenance/state.py:157-159 | no sequence of later saves, however stale, clears a cancellation or its status |
| JobStore.SpentSplits | tools/maintenance/state.py:254 | an issue's repair time is one job's share plus that of all the others |
| JobStore.ListingSumsSpent | tools/maintenance/state.py:253-254 | summing the listing of an issue without one job is that issue's repair time over the documents without it |
| LaunchWindows.AdmissionKeepsPace | tools/maintenance/state.py:211-226 | recording a launch that the allowance admits keeps any `limit`+1 consecutive launches a day apart |
| LaunchWindows.PaceBoundsEveryWindow | tools/maintenance/state.py:211-226 | such a list has at most `limit` launches in every half-open day |
| LaunchWindows.LaunchAfterIsExact | tools/maintenance/state.py:211-226 | the announced launch time is exact: refused at every time before it, admitted from it on |
| ProviderQuota.RetryAfter | tools/maintenance/quota.py:9-23 | a delay is given exactly for a finite value, rounded up and clamped to one minute and seven days |
| ProviderQuota.BackoffIsBounded | tools/maintenance/state.py:98-99 | backoff lies between ten minutes and an hour, and is the hour from the fourth failure |
| ProviderQuota.DeferTightens | tools/maintenance/state.py:93-105 | a new failure never shortens the wait and keeps failures in 1..16, the delay within its bounds and the episode's start |
| ProviderQuota.FailuresOnlyTighten | tools/maintenance/state.py:93-105 | the same over any sequence of failures |
| ProviderQuota.EarlierSuccessNeverClears | tools/maintenance/state.py:107-109 | work started before an observed failure never clears the quota, whatever failures follow |
| ProviderQuota.SilentFailuresBackOff | tools/maintenance/state.py:98-99 | k failures from alternating sources without a provider delay wait min(3600, 600*2^(k-1)), counted to sixteen |
| ProviderQuota.OnlyLatestSourceRepeats | tools/maintenance/state.py:96-97 | a report changes nothing if and only if it comes from the latest source |
| ProviderQuota.AlternatingSourcesCountAgain | tools/maintenance/state.py:96-97 | a source reported again after another one counts as two more failures |
| RunEnds.FailureIsDeferred | tools/maintenance/state.py:93-105 | a new failure is waited out for the provider's delay, rounded up within a minute and a week, or else for 10, 20, 40 or 60 minutes, and never less than before; a repetition changes nothing |
| QuotaHolds.PollKeepsWaiting | tools/maintenance/review_queue.py:17-86 | however a poll ends, a quota failure observed after the start of every completed review it finds is still waited out |
| QuotaHolds.FailureOutlivesOlderWork | tools/maintenance/state.py:107-109 | over every run: a quota failure is waited out until its time as long as nothing that began after it was observed succeeds, and until then no agent starts and no review is rerun |
| QuotaHolds.ReviewReopensQuotaExactly | tools/maintenance/review_queue.py:43-65 | in every reachable world an answered poll without a new quota failure clears the quota if and only if it finds a review newly completed that started no earlier than the quota was observed |
| Events.IngestCounts | tools/maintenance/state.py:111-135 | each incident's count is its number of distinct event ids; the cursor is monotone and covers every stored id |
| Events.IngestIsIdempotent | tools/maintenance/state.py:116-119 | any batch drawn from an ingested one, with repetitions, replays without effect on events and incidents |
| Events.FreshEventsAreAttended | tools/maintenance/state.py:111-135 | after an ingested batch every event of it that was fresh has its incident pending, or diagnosing with an unfinished job of its signature, whatever later events did |
| Diagnoses.IngestAcceptsExactly | tools/maintenance/state.py:111-135 | a batch is accepted if and only if its events are well formed, each id keeps its signature, and the cursor is an integer behind neither the old one nor an event |
| Diagnoses.FreshEventRevises | tools/maintenance/state.py:120-132 | a fresh event updates its own incident only: counted once more, and due after the debounce unless it waits already or an unfinished job of its signature diagnoses it |
| Diagnoses.DueIncidentIsDiagnosed | tools/maintenance/controller.py:137-142 | a due incident is diagnosed from then on, by a new initial job exactly when no unfinished job of its signature is stored; others are left alone |
| Diagnoses.DueIncidentsAreDiagnosed | tools/maintenance/controller.py:137-142 | a pass diagnoses every due incident it lists and no other |
| Dispatching.EnqueueDispatches | tools/maintenance/state.py:301-327 | an accepted call binds its event, and its generation, to the returned job and disturbs no earlier binding |
| Dispatching.ActiveRepairTakesEvent | tools/maintenance/state.py:319-320 | while an issue has an unfinished repair job, a new event goes to such a job and no job is made |
| Dispatching.EnqueueKeepsOneActive | tools/maintenance/state.py:313-320 | no call gives an issue a second active repair job, an owner's rerun included |
| Dispatching.EnqueueResolves | tools/maintenance/state.py:301-327 | every dispatched and reserved job stays stored |
| Decisions.NewEventIsTaken | tools/maintenance/state.py:313-327 | a new event: an owner's rerun lifts the hold, cancels unfinished triage and starts the unfinished repair over unless its agent runs; any other leaves them alone; without an unfinished repair a new one is made |
| Decisions.KnownEventIsAnswered | tools/maintenance/state.py:303-312 | a known event or generation is answered with its job; an event of another issue, or an issue without an origin, is refused |
| Repairs.StepKeepsOneActiveExactly | tools/maintenance/state.py:301-327 | a step of any kind keeps one active repair per issue if and only if it does not open a resting, new or edited repair of the issue beside another active one |
| Repairs.OneRepairUnlessDisputed | tools/maintenance/controller.py:668-692 | from an installation: one active repair throughout a run if and only if no step of it opens one beside another |
| Repairs.ContinueTracks | tools/maintenance/conversation.py:217-226 | after a decision to continue exactly the repairs active before, and the one it names or makes, are active |
| Repairs.EditTracks | tools/maintenance/controller.py:623-644 | an edit, such as the move to waiting or the return with new feedback, opens exactly the uncancelled job it makes an active repair |
| Repairs.ClosedRepairComesBack | tools/maintenance/state.py:270-280 | a repair closed while its agent works is active again when the run ends, beside the repair made meanwhile |
| Repairs.ReadyRepairReturnsBesideAnother | tools/maintenance/controller.py:606-644 | a run from an installation in which a repair runs, is published and ready, and returns beside the one a new event made |
| Dispatching.ReadyJobReturns | tools/maintenance/controller.py:606-607 | a ready issue that takes a new event and then new feedback has two active repair jobs |
| ReviewResumption.PollKeepsSlotCovered | tools/maintenance/review_queue.py:17-86 | whatever is answered and wherever a poll is abandoned, a held slot has an in-flight record; a rerun needs an enabled service, an open quota and no running job; no other table moves |
| ReviewResumption.InspectionCovers | tools/maintenance/review_queue.py:22-42 | the first loop frees the slot before its in-memory records stop covering it |
| ReviewResumption.AbsorptionCovers | tools/maintenance/review_queue.py:43-65 | the second loop does too |
| ReviewResumption.PollRerunsOnce | tools/maintenance/review_queue.py:66-86 | across polls, crashes and raising calls, no check is rerun twice while a pull request's checks do not get older |
| ReviewResumption.HeldSlotIsRecent | tools/maintenance/review_queue.py:35-42 | after a poll that stores its records, a held slot belongs to a request at most half an hour old |
| ReviewRecords.InspectionSeesEach | tools/maintenance/review_queue.py:22-42 | the first loop looks at each record once: obsolete, rerunning, awaiting a receipt or overdue after 180, 1800 and 180 s; and frees the slot exactly when a record of its check gives it up |
| ReviewRecords.CompletedReviewEndsRecord | tools/maintenance/review_queue.py:48-53 | a completed review ends its unfinished record, frees its slot, and clears the quota unless it was observed after the review started |
| ReviewRecords.FailedCheckNeedsPeople | tools/maintenance/review_queue.py:54-58 | a failed check other than the recorded one hands the record to people with the new receipt |
| ReviewRecords.DeferredReviewWaits | tools/maintenance/review_queue.py:59-65 | a new check that ran out of quota waits until the quota its failure leaves; a known one changes nothing |
| ReviewRecords.RequestAsksFirst | tools/maintenance/review_queue.py:69-86 | the first ripe record that is not rejected is marked and sent if its verdict came; rejected ones before it go to people; the rest stay |
| ReviewRecords.RequestAsksNone | tools/maintenance/review_queue.py:69-77 | with every ripe record rejected nothing is sent |
| ReviewRecords.PollClearsExactly | tools/maintenance/review_queue.py:43-65 | the exact condition for an answered poll to clear the quota |
| OwnerComments.ArrangedSorts | tools/maintenance/conversation.py:83-91 | the sort keeps exactly the same comments and puts them in time order |
| OwnerComments.NewestWins | tools/maintenance/conversation.py:89-91 | a merged list keeps, of two versions of a comment, the newer one |
| OwnerComments.PollKeepsOneOwner | tools/maintenance/conversation.py:80-96 | no comment version ever belongs to two triage jobs of an issue |
| OwnerComments.PollReserves | tools/maintenance/conversation.py:80-96 | after a poll some version of every visible comment is reserved, and it is a visible one when the comment was new |
| OwnerComments.PollReservesEveryVersion | tools/maintenance/conversation.py:80-96 | a listing that shows each comment once leaves every version it shows reserved |
| OwnerComments.RepeatedPollChangesNothing | tools/maintenance/conversation.py:85-96 | polling the same listing again changes nothing |
| OwnerComments.NewCommentHoldsIssue | tools/maintenance/conversation.py:86-96 | the issue is newly held exactly when a visible version was unreserved |
| Decisions.NewCommentsAreTriaged | tools/maintenance/conversation.py:86-96 | new comments hold the issue and go to one waiting triage job, of which only the comments change, or to a new one of the issue's origin |
| Decisions.ReplyOnlyCloses | tools/maintenance/conversation.py:217-230 | a reply closes the triage job and keeps everything else, the hold included |
| Decisions.ClosingClosesRepairs | tools/maintenance/conversation.py:227-230 | closing the pull request closes every uncancelled repair of the issue and the triage job, and keeps the hold |
| Decisions.ContinuingRestartsRepair | tools/maintenance/conversation.py:217-230 | to continue lifts this hold alone, closes the triage job, and queues the repair again at its stage, its result dropped and a round added if it ran |
| Decisions.ContinuingMakesRepair | tools/maintenance/conversation.py:224-230 | without a repair it queues a new one of the triage job's incident |
| Lifecycle.CompleteFrame | tools/maintenance/controller.py:272-336 | the end of a run touches the job table and the provider's quota only |
| RunEnds.AcceptedRunIsPublished | tools/maintenance/controller.py:331-336 | after an accepted run an uncancelled job is ready for publication, its result stored, its time charged, its lease over, and retries, wait and resumption mark cleared; a cancelled one stays cancelled; no other job moves |
| RunEnds.AcceptedRunKeepsNewerQuota | tools/maintenance/state.py:107-109 | it clears the quota unless that was observed after the lease began |
| RunEnds.QuotaFailureRequeues | tools/maintenance/controller.py:279-288 | after a quota failure the job is queued until the quota opens, marked as resuming, and the quota waits for this failure; a cancelled job stays cancelled |
| RunEnds.FailedRunWaits | tools/maintenance/controller.py:272-277 | a failed run is charged what it reports and a refused one its lease; the job is left between two writes |
| RunEnds.InterruptedAcceptanceStores | tools/maintenance/controller.py:331-335 | an acceptance cut short before its last write has stored the result and closed the lease |
| RunEnds.AgentIsPublished | tools/maintenance/controller.py:331-336 | in every reachable world an accepted result of a running agent leaves its job published, no job running, and the quota open unless it was observed while the agent ran |
| RunEnds.CancelledForGood | tools/maintenance/state.py:208-209 | a job cancelled in any reachable world is cancelled in every later one |
| Leases.ClaimAdmits | tools/maintenance/state.py:244-262 | a claim that succeeds found a queued job, an enabled service, a free slot, an open quota, no running job, budget and allowance |
| Leases.ClaimGrants | tools/maintenance/state.py:262 | it leaves one more running job with a live lease and a positive grant, and every other job and every issue's time as they were |
| Leases.ClaimGivesTheRemainder | tools/maintenance/state.py:251-262 | a repair's grant is exactly what its issue has left of the deep budget |
| Leases.CompleteCloses | tools/maintenance/controller.py:279-336 | however a run ends, its last write lost included, no lease and no running job is left, and the accounts still hold |
| Leases.RecoverCloses | tools/maintenance/state.py:282-287 | a restart ends every lease a crash left behind |
| Leases.InterruptedRecoveryKeepsAccounts | tools/maintenance/state.py:282-287 | wherever recovery itself dies, the accounts hold, and nothing is marked running once it has written |
| Exclusion.StepKeepsSane | tools/maintenance/controller.py:668-692 | every step keeps: one lease, held by the service's agent; nothing running beside a held slot; a covered slot; sound accounts |
| Exclusion.OneAgentOrOneReview | tools/maintenance/state.py:244-262 | over every run from an installation: at most one running job and one lease, none running while the slot is held, and an issue's repair time below twice the budget |
| Exclusion.AgentsStartOnlyWhenClear | tools/maintenance/controller.py:208-256 | only a claim marks a job running, and then the service is enabled, the quota open, the slot free, nothing else running and, but for triage, the issue not held |
| Overlap.RerunGateSeesMarkedAgents | tools/maintenance/review_queue.py:67-68 | the gate of a rerun sees a live agent exactly while its job is marked running |
| Overlap.OverlapNeedsUnmarkedAgent | tools/maintenance/review_queue.py:67-86 | an agent and a review overlap only from a rerun requested beside an agent whose job lost its mark |
| Overlap.MarkedRunsNeverOverlap | tools/maintenance/review_queue.py:67-86 | a run in which no step takes the mark from a working agent's job has no overlap |
| Overlap.OverlapConditionIsExact | tools/maintenance/review_queue.py:67-86 | with the slot free and the quota open, a poll can start a review beside an agent if and only if the service is enabled and the agent's job is not marked running |
| Overlap.CancelledAgentMeetsReview | tools/maintenance/state.py:208-209 | a run from an installation in which a cancelled job's agent and a review rerun meet |
| Budgets.CompleteBooks | tools/maintenance/state.py:270-280 | however a run ends, its job and its issue are charged its elapsed time, once and up to the stage's limit |
| Budgets.JobsLast | tools/maintenance/state.py:270-287 | over any run: jobs stay, their active time never decreases or passes its limit, and cancellation stays in both fields |
| Budgets.ThriftyRunsKeepBudget | tools/maintenance/state.py:251-262 | if every run stays within its grant, no issue's repair jobs pass the deep budget together |
| Pacing.DailyLimitsHold | tools/maintenance/state.py:211-262 | over every run: at most 30 rows of the launch log fall in any day between two resets, and at most 10 rows of repair starts in any day |
| Launches.ClaimLogsItsStart | tools/maintenance/state.py:257-261 | a claim that succeeds adds one launch row, above every earlier id, exactly when it starts a short job that does not resume after a quota failure, and one start row of the stage's kind exactly when it is the job's first |
| Launches.ClaimRefusesInOrder | tools/maintenance/state.py:244-256 | the reason a claim is refused for, in order, from unknown job to used-up allowance, with the limits 30, 10, 600 s and 14400 s |
| Launches.ClaimSucceedsExactly | tools/maintenance/state.py:244-256 | a claim succeeds if and only if none of these reasons holds |
| Launches.RunsAreLogged | tools/maintenance/state.py:211-226 | in every reachable world the allowances are computed over exactly the starts that happened, kept apart from the tables |
| Launches.StartsKeepDailyLimits | tools/maintenance/state.py:211-262 | over the starts that happened in any run: at most 30 counted short runs begin in any day between two resets, and at most 10 repair jobs in any day |
| Pacing.WaitIsExact | tools/maintenance/state.py:211-221 | a job's launch time is exact in every reachable world while nothing launches |
| Allowance.ResetFreesHeldJobs | tools/maintenance/state.py:228-242 | a new reset frees exactly the queued short jobs that waited for the allowance, empties it, and keeps the launch log |
| Allowance.ReceiptCounts | tools/maintenance/state.py:233-242 | its receipt: the time, the day's counted launches, the last launch it covers, and exactly how many jobs it frees |
| Allowance.RepeatedResetChangesNothing | tools/maintenance/state.py:231-232 | a repeated request, after any run, returns its first receipt and changes nothing |
| History.RecordsHold | tools/maintenance/state.py:111-135 | in every reachable world: incident counts are exact, the cursor covers every event, no comment version has two owners, every dispatched job exists, and the quota keeps its bounds |
| History.RerunsNeverRepeat | tools/maintenance/review_queue.py:66-86 | over every run in which no pull request's newest check goes back, no two reruns ask for the same check |
| Reruns.OlderCheckIsRerunAgain | tools/maintenance/review_queue.py:59-86 | a run from an installation in which a newest check goes back and is rerun a second time |
| Reruns.NewCheckIsRerun | tools/maintenance/review_queue.py:43-86 | a deferred review with a check other than the recorded one is rerun at once when the quota is open and nothing else uses it |
| History.EventKeepsItsJob | tools/maintenance/state.py:303-306 | an event resolves to the same job for ever, and repeating it changes nothing |
| History.GenerationKeepsItsJob | tools/maintenance/state.py:309-312 | two events of one generation run one job, however far apart |
| History.CommentPollsAreDurable | tools/maintenance/conversation.py:80-96 | in every world reached with listings that show each comment once, a poll reserves every visible version, and repeating it changes nothing |
| Recovery.RecoverResumesEach | tools/maintenance/state.py:282-287 | recovery charges and closes each open run, moves each job between two writes to its result or its queue, and changes no other job |
| Recovery.RecoverTwice | tools/maintenance/state.py:282-287 | a second recovery changes nothing |
| RunEnds.RestartResumesEach | tools/maintenance/state.py:282-287 | what each job is after a restart: charged and closed, and back at its stored result or its queue |
| Recovery.StoredResultSurvivesCrash | tools/maintenance/controller.py:331-336 | a crash after a result is stored and before its lease ends leads to publication, with the run charged once |
| Recovery.FinishedResultSurvivesCrash | tools/maintenance/controller.py:334-336 | so does one between the end of the lease and the job's last write, charged as the run reported |
| Recovery.InterruptedRecoveryResumesEach | tools/maintenance/state.py:282-287 | after a crash inside recovery the next one leaves every job as one of the two would have alone |
| Preparation.RetriesRunOut | tools/maintenance/controller.py:338-346 | a failed attempt waits for the owner, goes to a human, or uses one more retry and waits 30 to 900 seconds |
| Passes.FailedTurnAwaitsOwner | tools/maintenance/controller.py:338-342 | a job whose dependency failed while its owner is awaited goes back in line without its resumption mark |
| Passes.FailedTurnWaits | tools/maintenance/controller.py:343-346 | with retries left it counts the attempt and waits 30 s, doubled at each, up to 900 s |
| Passes.FailedTurnEscalates | tools/maintenance/controller.py:343-344 | with none left it goes to people with its incident |
| Preparation.ConsideringIsSteps | tools/maintenance/controller.py:208-256 | a pass over the candidates, whatever the outside answers, is a sequence of possible steps of the world |
| Preparation.PreparingIsSteps | tools/maintenance/controller.py:208-256 | so is `prepare_run` with its gates and its listing |
| Preparation.PassKeepsSane | tools/maintenance/controller.py:208-256 | so it keeps every invariant of the steps |
| Preparation.TriageGoesFirst | tools/maintenance/controller.py:210 | a diagnosis or a repair starts only when no queued triage could |
| Turns.CyclesSplit | tools/maintenance/state.py:264-268 | an issue's repair cycles split into one job's first run and rounds and those of the others |
| Turns.SpentTurnEscalates | tools/maintenance/controller.py:213-218 | a candidate over its time or cycles, or out of scope, goes to people with its incident |
| Turns.LateTurnWaits | tools/maintenance/controller.py:220-224 | a candidate beyond the allowance waits until it may launch, marked as waiting for it |
| Turns.FinishedTurnEnds | tools/maintenance/controller.py:237-239 | a candidate whose work is done elsewhere is done |
| Turns.PreparedTurnStarts | tools/maintenance/controller.py:242-255 | a prepared candidate gets its context and then the lease for what its budget leaves, or waits a minute |
| Passes.PassStartsExactly | tools/maintenance/controller.py:208-256 | with the service enabled, the quota open and no agent running, a pass starts an agent if and only if some queued job is ready as it begins, and that job is one |
| Passes.IdleServiceStartsReady | tools/maintenance/controller.py:208-256 | so in every reachable world with the service up and idle |
| State.State.SaveJob | tools/maintenance/state.py:154-163 | keeps columns, keys and cancellations sound; the document comes last, stays cancelled if it was, and disturbs no other |
| State.State.UpdateJob | tools/maintenance/state.py:183-188 | changes one stored document, or reports an unknown id and changes nothing |
| State.State.SecondsOfOthers | tools/maintenance/state.py:254 | the loop's sum is the issue's repair time without the job |
| State.State.Claim | tools/maintenance/state.py:244-262 | refuses in the source's order of reasons and then changes nothing, or claims as the specification does |
| State.State.FinishRun | tools/maintenance/state.py:270-280 | charges and closes a run; an unknown job and a lease already closed are refused |
| State.State.Recover | tools/maintenance/state.py:282-287 | both loops together recover the tables as specified |
| State.State.ResetInitialQuota | tools/maintenance/state.py:228-242 | a repeated request returns its receipt, a new one frees the waiting jobs, counts them and starts a segment |
| State.State.DeferProvider | tools/maintenance/state.py:93-105 | stores and returns the next quota, or the stored one for a repetition |
| State.State.ProviderRecovered | tools/maintenance/state.py:107-109 | a quota whose newest failure was observed after the work started stays as it was; one that stays was |
| State.State.Ingest | tools/maintenance/state.py:111-135 | a batch and its cursor commit together; a refused batch leaves the tables as they were |
| State.State.Enqueue | tools/maintenance/state.py:301-327 | resolves or accepts an event as specified, and changes nothing when it refuses |
| ReviewQueue.ReviewQueue.Release | tools/maintenance/review_queue.py:12-15 | afterwards no slot is held for the check; a slot held for another stays, and no other table moves |
| ReviewQueue.ReviewQueue.InspectRecords | tools/maintenance/review_queue.py:22-42 | the first loop's slot and records |
| ReviewQueue.ReviewQueue.AbsorbExecutions | tools/maintenance/review_queue.py:43-65 | the second loop's slot, quota and records |
| ReviewQueue.ReviewQueue.RequestRerun | tools/maintenance/review_queue.py:69-86 | the third loop stores the first valid request before it is sent, and sends one at most |
| ReviewQueue.ReviewQueue.Poll | tools/maintenance/review_queue.py:17-86 | a whole poll, abandoned wherever an answer raises |
| Conversation.Conversation.Poll | tools/maintenance/conversation.py:80-96 | one issue's transaction, and whether anything was new |
| Conversation.Conversation.Decide | tools/maintenance/conversation.py:217-230 | the decision's transaction: repairs closed, resumed or made, the hold lifted, the triage done |
| Controller.Controller.ScheduleIncidents | tools/maintenance/controller.py:137-142 | each due incident gets a diagnosis unless one is at work |
| Controller.Controller.NeedsHuman | tools/maintenance/controller.py:362-365 | hands a job and its incident over; a cancelled job is left alone |
| Controller.Controller.RetryLater | tools/maintenance/controller.py:338-346 | waits for the owner, hands over or backs off as specified |
| Controller.Controller.PrepareRun | tools/maintenance/controller.py:208-256 | walks the candidates, triage first, until one starts or a claim is refused |
| Controller.Controller.AcceptResult | tools/maintenance/controller.py:331-336 | stores the result, ends the lease, lets the quota recover, and passes the job on unless it was cancelled |
| Controller.Controller.DeferQuota | tools/maintenance/controller.py:279-288 | defers the provider, charges the run and requeues the job until the quota opens |
| Effects.RunKeeps | tools/maintenance/controller.py:86-120 | over any interleaving: one send per key, records only move forward with their payload, a finished record keeps its result |
| Effects.EffectsAreSentOnce | tools/maintenance/controller.py:86-111 | per key, at most one mutation is sent and at most `retries`-1 callers are told to wait |
| Effects.SendsExactly | tools/maintenance/controller.py:86-111 | a call sends its mutation if and only if every gate passes, the search finds nothing, the payload agrees, and the key has no record or only an intent |
| Effects.SentIsRecorded | tools/maintenance/controller.py:105-111 | an acknowledged send is finished with its receipt and returned; a lost one stays uncertain |
| Effects.FoundIsStored | tools/maintenance/controller.py:98-100 | a found effect is stored and returned unsent |
| Effects.RecordAnswers | tools/maintenance/controller.py:91-93 | a finished record returns its own result and another payload is refused |
| Effects.UncertainWaits | tools/maintenance/controller.py:101-104 | an unconfirmed effect waits exactly while attempts+1 < retries and then needs an operator |
| Effects.StoppedLeavesMark | tools/maintenance/controller.py:86-108 | what a stopped call leaves at each gate |
| Effects.EffectStepCounts | tools/maintenance/controller.py:86-111 | a step of a run counts a send exactly when one goes out, and applies it when it is acknowledged or lost on its way back |
| Effects.DoneMeansApplied | tools/maintenance/controller.py:86-120 | with truthful searches a finished effect was applied, and a result is returned only for an applied effect |
| Effects.ScanTracesIssues | tools/maintenance/controller.py:113-120 | after a complete scan every finished issue effect is traced to its issue, and no issue has two markers |
| Effects.ScanSettles | tools/maintenance/controller.py:113-120 | a complete scan finishes each issue effect it finds with its receipt, and leaves one it misses as it was |
| Effects.EffectJournal.Effect | tools/maintenance/controller.py:86-111 | one call stops exactly where an answer stops it, keeping what it had stored; its outcome and whether it sent are as specified |
| Effects.EffectJournal.ReconcileOrigins | tools/maintenance/controller.py:113-120 | the scan in listing order, up to the first answer or insertion that raises |
| Notifications.CoalescingLeavesOne | tools/maintenance/notifications.py:48-54 | a group that had a live record keeps one, has at most one live unposted record, and none once any was posted |
| Notifications.CoalescingIsIdempotent | tools/maintenance/notifications.py:36-55 | coalescing again, in any listing order, changes nothing |
| Notifications.CoalescingKeepsOneLive | tools/maintenance/notifications.py:36-55 | from an untouched outbox coalescing leaves at most one live record per identity, and then keeps the table |
| Notifications.CoalescingRepresents | tools/maintenance/notifications.py:36-55 | coalescing leaves a live record for the identity of every superseded one |
| Notifications.OneKeyPerIdentity | tools/maintenance/controller.py:354-360 | starting with nothing posted, at most one transport key per identity is ever sent |
| Notifications.RunKeepsOrder | tools/maintenance/controller.py:650-666 | over any polls and notifications the outbox stays orderly, with at most one live record per identity |
| Notifications.RunKeepsExactlyOneLive | tools/maintenance/controller.py:650-666 | and after any of them exactly one live record bears the identity of each record |
| Deliveries.NotifyAddsExactly | tools/maintenance/controller.py:354-360 | a notification adds one pending record under its identity if and only if no record bears it |
| Deliveries.PollSettlesEach | tools/maintenance/controller.py:650-666 | a poll posts exactly the undecided, never posted records the transport does not know, and stores an answer exactly under its own key |
| Deliveries.PollingStepSettles | tools/maintenance/controller.py:650-666 | so does a step of a run, after coalescing |
| Notifications.NotificationTable.CoalescePending | tools/maintenance/notifications.py:36-55 | grouping and superseding in place equal the specification |
| WorkerSupervision.PassReachesDesired | crates/openplotva-app/src/dialog_workers.rs:77-95 | a pass ends at the desired size: it spawns just the missing workers under new indexes, or retires and signals the newest, newest first |
| WorkerSupervision.PassesKeep | crates/openplotva-app/src/dialog_workers.rs:76-106 | over any passes the active workers stay in spawn order; the spawned workers are exactly the active, the retired and the reaped, disjointly; only finished ones are reaped; none is signalled twice |
| WorkerSupervision.IndexesAreNeverReused | crates/openplotva-app/src/dialog_workers.rs:82-87 | an index that left the active workers never comes back |
| WorkerSupervision.DrainFinishesAll | crates/openplotva-app/src/dialog_workers.rs:107-114 | at a stop every worker ever spawned is joined once or was seen finished before, and not both |
| WorkerSupervision.Supervisor.Reconcile | crates/openplotva-app/src/dialog_workers.rs:77-95 | the loops of one pass, and both gauges |
| WorkerSupervision.Supervisor.Supervise | crates/openplotva-app/src/dialog_workers.rs:76-114 | passes until the stop, then joins of the active and then the retired |
| StreamMetering.LinesOfAppended | tools/maintenance/gateway.py:155-158 | cutting a stream into lines can be resumed from its unfinished line |
| StreamMetering.StreamFollowsLines | tools/maintenance/gateway.py:146-162 | below the size limit the loop has observed the finished lines of the whole stream, or broken off at a quota error |
| StreamMetering.MeteringFollowsLines | tools/maintenance/gateway.py:146-163 | the texts observed are the lines of the whole stream, its end included, and the client gets the stream, however it was cut |
| StreamMetering.TotalsIgnoreChunks | tools/maintenance/gateway.py:146-163 | in particular two ways to read a stream with no finished quota error give the same meter |
| StreamMetering.CutsAgreeExactly | tools/maintenance/gateway.py:146-163 | all ways to read a stream that fits, in chunks of 1 to 8192 bytes, give the same meter if and only if every place where a reading can break off at a quota error leaves the same one |
| StreamMetering.QuotaIgnoresChunks | tools/maintenance/gateway.py:159-163 | whether the quota is found exhausted never depends on the cut |
| StreamMetering.StreamIsForwardedExactly | tools/maintenance/gateway.py:146-162 | the client gets the exact stream if and only if it fits and no finished line reports the quota exhausted |
| StreamMetering.ForwardedIsPrefix | tools/maintenance/gateway.py:146-162 | the client always gets a prefix within the size limit |
| StreamMetering.StoppedAtPrefix | tools/maintenance/gateway.py:159-163 | a reading that breaks off has metered the stream up to a place where the error is finished and was not one chunk before |
| StreamMetering.StopsAtPlace | tools/maintenance/gateway.py:146-163 | some reading breaks off at each such place |
| StreamMetering.TotalsDiffer | tools/maintenance/gateway.py:155-163 | one stream read in two ways, five tokens apart |
| StreamMetering.PlainResponseIsObservedWhole | tools/maintenance/gateway.py:144-163 | a response that is not a stream is forwarded as it comes and observed once, whole |
| StreamMetering.TextsMark | tools/maintenance/gateway.py:194-217 | the quota flag is set exactly when it was or an observed text reports it |
| StreamMetering.Gateway.ObserveUsage | tools/maintenance/gateway.py:194-210 | counts the plain, bounded amounts of every document of a text, and marks quota errors |
| StreamMetering.Gateway.MarkQuota | tools/maintenance/gateway.py:212-217 | sets the flag and the newest delay, keeps the count equal to the flag, and changes nothing else once the flag is set |
| StreamMetering.Gateway.RefuseResponse | tools/maintenance/quota.py:26-37 | an account error never marks the quota, whatever the status; a 429 without one always does; any other answer exactly when its error names the quota; a marked quota has the delay in its bounds |
| StreamMetering.QuotaErrorsCountOnce | tools/maintenance/gateway.py:194-217 | however many documents of however many texts report the quota exhausted, one is counted |
| UsageLines.DataLineCounts | tools/maintenance/gateway.py:194-210 | a `data:` line counts its stripped payload: prompt as input, completion as output, each only from 0 to ten million, and the flag when it reports the quota |
| UsageLines.CutIsSplit | tools/maintenance/gateway.py:195-196 | a text has the lines that end at LF, CR or CR LF |
| UsageLines.TextIsObserved | tools/maintenance/gateway.py:194-210 | a text without `data:` is one document; in any other the meter moves through its `data:` lines in order, and other lines add nothing |
| UsageLines.ResponseIsCounted | tools/maintenance/gateway.py:143-163 | a whole response moves the meter through its texts in order: the lines of a stream, cut at each LF, until a quota error; a plain response at once |
| StreamMetering.Gateway.Relay | tools/maintenance/gateway.py:143-163 | the whole loop: its meter and its forwarded bytes |
| MemoryAliases.PeopleAreFirstSenders | tools/prompt-eval/prompt_eval.py:180-198 | the people are the distinct senders, each once, in the order they first speak |
| MemoryAliases.SendersAreIntroduced | tools/prompt-eval/prompt_eval.py:185-195 | a person has the sender's name, or the username after exactly one at sign, and the username without any |
| MemoryAliases.NumbersNameSenders | tools/prompt-eval/prompt_eval.py:191-197 | each message's number names its own sender |
| MemoryAliases.PersonNumberRoundTrips | tools/prompt-eval/prompt_eval.py:302-304 | the person number shown on a message resolves to that message's user |
| MemoryAliases.MessageNumbersRoundTrip | tools/prompt-eval/prompt_eval.py:290-298 | citing message numbers resolves to those messages' ids and entries, each once, in order |
| MemoryAliases.ResolveVerdicts | tools/prompt-eval/prompt_eval.py:305-311 | each named card becomes the one its value numbers, itself when it is a card's id, and otherwise, booleans and texts included, 0; a target that says nothing stays |
| MemoryAliases.ResolutionBelongs | tools/prompt-eval/prompt_eval.py:284-304 | whatever an answer says, a resolved card cites only its window, nothing twice, and a person of the window or nobody |
| MemoryAliases.ResolutionExactly | tools/prompt-eval/prompt_eval.py:284-304 | a resolved card cites the ids its values stand for, each once, in order; its person is the one its value stands for |
| MemoryAliases.StorageIdsReturnExactly | tools/prompt-eval/prompt_eval.py:277-295 | a card citing storage ids of the window keeps its list if and only if none of them is also another message's number |
| MemoryAliases.ResolvingTwiceExactly | tools/prompt-eval/prompt_eval.py:284-304 | resolving a resolved card again changes nothing, its person included, if and only if none of its ids is also another item's number |
| MemoryAliases.MemoryPeople | tools/prompt-eval/prompt_eval.py:180-198 | the loop builds the specified people and numbers |
| MemoryAliases.ResolveCard | tools/prompt-eval/prompt_eval.py:284-304 | the loops resolve a candidate card as specified |
| MergePlans.AcceptedExactly | tools/prompt-eval/prompt_eval.py:660-692 | a plan is accepted exactly when it decides every card once, each fold goes to a different card that is its own head, and every such head has a text |
| MergePlans.MergingOnceIsEnough | tools/prompt-eval/prompt_eval.py:680-692 | folding by an accepted plan ends in one step: no chain, no cycle, and every card that moved lands on a card with a text |
| MergePlans.OneDecisionPerCard | tools/prompt-eval/prompt_eval.py:666-679 | an accepted plan has as many decisions as cards |
| MergePlans.CardExactly | tools/prompt-eval/prompt_eval.py:668-681 | a decision is about the card its index equals, and puts it under itself or the card its survivor equals; `true` is 1 and `false` 0 |
| MergePlans.FirstRefusalIsReported | tools/prompt-eval/prompt_eval.py:666-675 | the first decision about no card, a decided card, or without an action names the problem |
| MergePlans.LaterProblemIsReported | tools/prompt-eval/prompt_eval.py:676-692 | then come missing cards, bad folds, unhashable texts and heads without a text, in this order |
| MergePlans.MergePlanErrors | tools/prompt-eval/prompt_eval.py:660-692 | reports the first problem in the source's order, and none exactly for a well-formed plan |
| AgentGovernor.TurnsAreGoverned | crates/openplotva-agent/src/lib.rs:37-62 | however steps and tool calls interleave, answers come as tools, final, exhausted; tools at most limit-1 times; at most 32 calls admitted; exhausted past the limit |
| AgentGovernor.FinalStepComes | crates/openplotva-agent/src/lib.rs:40-49 | while time is left a turn reaches a final step |
| AgentGovernor.EarlyFinalEndsTools | crates/openplotva-agent/src/lib.rs:38-62 | once tools are refused before the last step, no later call is admitted |
| AgentGovernor.AdmittedExactly | crates/openplotva-agent/src/lib.rs:53-61 | a turn admits exactly its first 32 tool calls made with more than 20 s left |
| AgentGovernor.AnsweredExactly | crates/openplotva-agent/src/lib.rs:38-50 | the answer to the n-th step request, exactly: exhausted without time or past the limit, tools with time, an attempt and a later step left, final otherwise |
| AgentGovernor.AgentLoop.NextStep | crates/openplotva-agent/src/lib.rs:38-50 | tools are offered only before the last step and when a call would be admitted; short of exhaustion time and a step are left; no later answer goes back a phase |
| AgentGovernor.AgentLoop.AdmitTool | crates/openplotva-agent/src/lib.rs:53-61 | attempts stay within the limit; a refused call costs nothing, and after one no later call is admitted, whatever steps come between, since time only runs out |
| AgentGovernor.Drive | crates/openplotva-agent/src/lib.rs:65-76 | a host that stops when exhausted ends within limit+1 steps, and at exactly that many while time is left |

## Left out

- SQLite, WAL, JSON encoding and the connection threads: transactions are atomic, and the columns of `jobs` are modelled but not its bytes.
- The schema migrations, history retention (`retained_context`), usage counters and reason texts of a job; a job's waiting reason is one flag.
- Times are integers, so a second's fraction is not modelled; one operation reads the clock once.
- An empty queue generation is modelled as none; identifier checks at the command line are not modelled.
- `prepare_run`: the runner's preflight, whose failure only delays the job by a minute, and the notification and label that go with a handover.
- `poll_reviews`, `publish_patch`, `handle_feedback`, `initial_result`: their job changes are arbitrary allowed `EditJob` steps, and their GitHub writes are effects; which artifact leads to which change is not modelled.
- The operator's command line beside the service: `enqueue` and `cancel` are steps at any time, but an effect scan interleaved inside another process's scan is not.
- Notification identities (`notification_payload`) are keys; how they are built from a job is not modelled.
- Rendering of issues, replies and prompts, privacy filtering, patch validation, GitHub, Docker and network calls.
- The order of existing cards in a prompt (`memory_cards`): both the prompt and the resolver use the same list, so round trips hold for any order. Trimming is taken as already done.
- `spawn_worker_supervisor`: task scheduling and signal delivery; a pass receives which workers it sees finished.
- The gateway's sockets, tokens, cache and request limit; a job's expiry is the end of the chunks read. A failed write to the
  client ends the response without the last observation; `StreamMetering.Gateway.Relay` models responses whose writes succeed.
- StreamMetering.Gateway.ObserveUsage: an event whose error type is a list or an object raises out of the observation and ends
  the response. The model counts such an event as no quota error; `StreamMetering.Gateway.RefuseResponse` does model the raise.
- `AgentLoop` counters do not overflow, and its transcript is not modelled.
- Conversation.Conversation.Decide: adds a cycle to the repair's stored rounds, where the source adds it to the rounds it read
  before the reply was sent; they differ only if an operator's `enqueue` requeues the repair in between.
- Pacing.WaitIsExact: says nothing about a job whose own document changes while it waits.
