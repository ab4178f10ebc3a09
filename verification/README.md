# Chatstronomy: verified model

Chatstronomy polls a telescope's history and reports it to chat. What it polls is repeated, reordered, partly
withdrawn by privacy switches and occasionally flooded, and most of its logic is about getting a faithful, bounded
and non-repeating story out of that. This project models that logic in Dafny and proves what it promises.

Code that updates objects in place is a class whose methods are proved against a function on values; the results
over whole runs are lemmas about that function.

| files | what they model |
|---|---|
| `TokenBucket`, `Diagnostics`, `FloodControl` | the flood limiter: two lazy token buckets behind a 60-second fingerprint queue, against a ledger that never forgets |
| `ElisionSnapshot`, `Elision` | validation of the plugin's drop counters, and the accounting of drops from both guards |
| `SeenSet` | the bounded least-recently-seen set behind every "already announced" decision |
| `SequenceOperations`, `Reconciler`, `Lifecycle`, `SequenceReconciler` | the diff of sequence-tree snapshots into a lifecycle of notifications per operation |
| `Autofocus`, `AutofocusRuns`, `AutofocusReceipts`, `AutofocusQueue` | delivery of autofocus reports: retry queue, deadlines, backoff, durable receipts |
| `EventNames`, `ScopeTable`, `Events`, `SchedulerWait`, `EventState`, `Batches`, `EventProcessing`, `WaitTransitions`, `EventRuns`, `DropLoss`, `CenterMarks`, `ChatUpdater` | state reconstructed from event history under privacy markers |
| `FrameHistory`, `ChartSegments` | the rolling frame statistics and the two chart splitters |
| `WindowLimiter`, `Reachability` | the per-key request limiter; the connection debounce and reconnect backoff |

## How the outside appears

Clock readings, chat and store outcomes, report reads and map iteration orders are parameters of each step, so every
result holds whatever they are. A timestamp carries its text and, when it parses, an integer instant. Chat is a log
of acts, the receipt store a set. Monotonic time is in nanoseconds.

## Where the code and its own words differ

* The fingerprint queue's 128-entry cap (`src/event_rate_limit.rs:124-126`) never evicts: while the clock does not go
  back at most 9 errors and 19 logs are live (`FloodControl.LiveQueueIsShort`).
* `src/hub/rate_limit.rs:22` describes `blocked` as "already at or over the limit". For a limit of zero and a key
  without a live window it says no although `check` refuses. The server's own limits are 12, 30 and 10
  (`src/hub/server.rs:168-176`), so only a caller that chose zero could see the difference;
  `WindowLimiter.BlockedForetellsRefusal` gives the exact condition.
* An acknowledgement is meant to say that every channel holds its receipt. When a route is removed during the send,
  recording silently does nothing (`src/hub/autofocus_delivery.rs:50-70`) and the report is acknowledged without that
  receipt: `AutofocusReceipts.AcknowledgedWithoutReceipt` is the failing family and
  `AutofocusReceipts.AcknowledgedIsBacked` the exact condition, channel by channel.
* A privacy marker discards the pending drop counts of its scope on every poll that still carries it, not only on the
  first (`src/chat_updater.rs:2924-2930`), although the marker itself is applied once. Drops counted after the scope was
  switched on again are lost with it unless their notice was due before. `DropLoss.LostDrop` is the smallest case, and
  `DropLoss.OldMarkersLoseDrops` says for every history polled again which counts are lost and which are not.
* The focuser watermark takes the time of a privacy marker even when that moves it back; the scheduler watermark
  never moves back. Both are modelled as written.

## Model

| member | source | states |
|---|---|---|
| TokenBuckets.LevelIsTightestWindow | src/event_rate_limit.rs:65-77 | The level refilled only at calls is the tightest of the bounds of all windows ending now: nothing is lost by being lazy |
| TokenBuckets.AcceptedExactlyWithinBudget | src/event_rate_limit.rs:65-77 | A call is accepted exactly when no window that ends with it would be overdrawn |
| TokenBuckets.StretchBound | src/event_rate_limit.rs:65-77 | At most capacity + elapsed/refill acceptances in any stretch of calls |
| TokenBuckets.SpacedCallsAccepted | src/event_rate_limit.rs:65-77 | Calls at least one refill interval apart are never refused |
| TokenBuckets.AfterFacts | src/event_rate_limit.rs:65-77 | Tokens stay within 0 and the capacity over any calls |
| TokenBuckets.TokenBucket.constructor | src/event_rate_limit.rs:56-63 | A bucket starts full |
| TokenBuckets.TokenBucket.Allow | src/event_rate_limit.rs:65-77 | The in-place bucket answers and changes like the value the laws are about |
| FloodControl.LiveQueueIsShort | src/event_rate_limit.rs:105-127 | At most 9 error and 19 log fingerprints are live, so the 128-entry cap is never reached |
| FloodControl.AllowKeepsValid | src/event_rate_limit.rs:101-129 | Every call at a time no earlier than the last keeps the queue sorted in time and paid for by the buckets |
| FloodControl.StepRefines | src/event_rate_limit.rs:101-129 | One call answers like the ledger that forgets nothing, and the queue stays its live tail |
| FloodControl.LimiterAnswersLikeLedger | src/event_rate_limit.rs:101-129 | Over any run a diagnostic is admitted exactly when no equal one was admitted in the last 60 seconds and its class has a token |
| FloodControl.ClassesDoNotStarve | src/event_rate_limit.rs:82-128 | The answers to one class are those it would get if nothing else arrived |
| FloodControl.EventRateLimiter.constructor | src/event_rate_limit.rs:89-97 | Both buckets full, no fingerprints |
| FloodControl.EventRateLimiter.Allow | src/event_rate_limit.rs:101-129 | The loop over the fingerprint queue and the two buckets in place computes the limiter's step |
| ElisionSnapshot.ValidateSnapshot | src/events.rs:61-112 | A snapshot is accepted, unchanged, exactly when every entry decodes, all identifiers are well formed, there are at most 128 and no accounting key repeats; otherwise all of it is refused |
| ElisionSnapshot.ValidatedSlotsAreDistinct | src/events.rs:99-108 | Accepted snapshots never name one accounting slot twice, log-level aliases included |
| Elision.GuardsNeverFire | src/event_elision.rs:102-104 | Within an accepted snapshot neither 128-key guard drops an entry or a delta |
| Elision.SnapshotIsPointwise | src/event_elision.rs:86-135 | A snapshot acts on each key by itself: omitted keys vanish, the others get exactly their own watermark and credit |
| Elision.SnapshotBoundsKeys | src/event_elision.rs:91-97 | Afterwards the watermarks are exactly the snapshot's keys and the pending counts a subset of them |
| Elision.SnapshotIsIdempotent | src/event_elision.rs:105-134 | Seeing a snapshot twice is seeing it once |
| Elision.StepConserves | src/event_elision.rs:62-164 | One operation: held + announced + discarded accounts for everything credited to a key |
| Elision.DropsAreConserved | src/event_elision.rs:62-164 | Over any run, per key, credited drops are announced, pending or discarded; never invented, and none lost short of counter saturation |
| Elision.PluginCreditIsGrowth | src/event_elision.rs:107-134 | A key continuously present in one epoch is credited the highest count observed less its baseline, however counts repeat or regress |
| Elision.NoticesAreSpaced | src/event_elision.rs:146-164 | Notices are positive and at least 60 seconds apart |
| Elision.EveryReporterIsBounded | src/event_elision.rs:62-164 | Over any run of a new reporter neither map holds more than 128 keys, and the pending ones are among the reported ones |
| Elision.EnabledDropsAlwaysCount | src/event_elision.rs:73-81 | With a reporting plugin a hub drop counts exactly when its slot is enabled |
| Elision.EventElisionReporter.constructor | src/event_elision.rs:53-59 | A new reporter is empty |
| Elision.EventElisionReporter.DroppedAtHub | src/event_elision.rs:62-82 | The in-place update is the model's step |
| Elision.EventElisionReporter.ObserveSource | src/event_elision.rs:86-135 | The retain-and-loop over the snapshot is the model's step |
| Elision.EventElisionReporter.ObserveItem | src/event_elision.rs:98-134 | One iteration of that loop |
| Elision.EventElisionReporter.RevokeScope | src/event_elision.rs:137-142 | Pending counts of the scope go, watermarks stay |
| Elision.EventElisionReporter.TakeNotice | src/event_elision.rs:146-164 | A due notice announces the whole backlog and clears it |
| Elision.SaturatingSum | src/event_elision.rs:153-157 | Saturating addition in any map order gives the sum capped at the largest u64 |
| SeenSet.BoundedIsLatestDistinct | src/chat_updater.rs:769-787 | Whatever the history, the set holds exactly the last `capacity` distinct keys in order of last sighting |
| SeenSet.SeenExactlyWhenRecent | src/chat_updater.rs:769-787 | A key counts as seen exactly when fewer than `capacity` distinct other keys came since its last sighting |
| SeenSet.AnnouncedExactlyOnce | src/chat_updater.rs:769-787 | Polling a history of at most `capacity` distinct keys again and again reports each key new exactly once |
| SeenSet.FirstSightingIsNew | src/chat_updater.rs:769-787 | A key never sighted before is reported new at its first sighting |
| SeenSet.HeldWhileRecent | src/chat_updater.rs:769-787 | A held key outlives further sightings exactly as long as fewer than `capacity` distinct others are newer |
| SeenSet.LinkedPop | src/chat_updater.rs:780-785 | Evicting the smallest sequence number keeps the two maps inverse and drops the least recent key |
| SeenSet.RefreshIsTouch | src/chat_updater.rs:770-777 | Renewing a held key keeps the two maps inverse below the counter and makes it the most recent |
| SeenSet.BoundedSeenSet.constructor | src/chat_updater.rs:757-764 | Empty, with a capacity of at least one |
| SeenSet.BoundedSeenSet.CheckAndInsert | src/chat_updater.rs:769-787 | Answers whether the key was held, and the inverse maps then list the touched recency list |
| SeenSet.BoundedSeenSet.EvictOldest | src/chat_updater.rs:780-785 | Drops exactly the least recently seen key |
| SeenSet.ClaimPlateSolveOutput | src/chat_updater.rs:806-815 | A claim succeeds at the first offer of its key; a switched-off operation claims and consumes nothing |
| SequenceOperations.ProgressIsPercent | src/chat_updater.rs:446-501 | Available progress lies within 0 and 100 |
| SequenceOperations.TimedPercentGrows | src/chat_updater.rs:449-459 | The percentage of a fixed timed wait never falls as time passes |
| SequenceOperations.WaitProgressGrows | src/chat_updater.rs:446-491 | The same for the tracked waits, whose progress also stays available |
| SequenceOperations.NextMilestoneIsHighestNew | src/chat_updater.rs:503-508 | The next milestone is the highest one reached, above the last and not above current progress; there is one whenever one is due |
| Lifecycle.SnapshotListsLast | src/chat_updater.rs:1708-1749 | A key is in the snapshot exactly when it is listed and not suppressed, and stands for its last listing up to promotion |
| Lifecycle.TrackedMirrorsSnapshot | src/chat_updater.rs:1708-1927 | After a poll the tracked keys are exactly those whose last listing is active and unsuppressed, each with that listing, a known center classified as such |
| Lifecycle.PollIsAccepted | src/chat_updater.rs:1752-1927 | One announced poll takes each key through a correct stretch of its lifecycle, ending where tracking ends |
| Lifecycle.RunIsAccepted | src/chat_updater.rs:1673-1955 | Over any run of announced polls, center events and privacy markers each key's notifications are a lifecycle: a start (silent only for the deduplicated center), progress and outputs, one end |
| Lifecycle.StartsAreSeparated | src/chat_updater.rs:1888-1927 | No second start without a terminal notification, a suppression or a revocation in between |
| Lifecycle.SilentStartIsACenter | src/chat_updater.rs:1700-1749 | A silent start is the matched center's, once per poll, within two minutes of its event, and uses the event up |
| Lifecycle.SilentStartsArePaid | src/chat_updater.rs:1700-1749 | Over any run there are no more silent starts than center events to pay for them |
| Lifecycle.MilestonesRise | src/chat_updater.rs:1869-1872 | The milestones of one item are among 25, 50 and 75, in strictly rising order |
| Lifecycle.MilestonesAreEarned | src/chat_updater.rs:1869-1872 | Every milestone a poll notes is the highest its operation has completed, never above current progress |
| Lifecycle.BaselineNeverReplays | src/chat_updater.rs:1907-1912 | An operation found under way by the baseline, first or retried, never announces a milestone it had passed by then, over any later run, however its end estimate moves |
| Lifecycle.ChatHearsEverything | src/chat_updater.rs:1929-1954 | Since snapshots carry only enabled operations, an announced poll delivers every notification |
| SequenceReconcilers.OutputShownAtMostOnce | src/chat_updater.rs:806-815 | While at most 20,000 results have been claimed, no plate-solve result is shown twice over any run, across keys and item replacements, nor once if it was claimed before |
| SequenceReconcilers.OutputShownOnlyWhenFresh | src/chat_updater.rs:769-815 | Over any run at all a result is shown at most once per claim that 20,000 others separate from its previous one |
| SequenceReconcilers.SequenceReconciler.constructor | src/chat_updater.rs:946-993 | Nothing tracked, nothing claimed |
| SequenceReconcilers.SequenceReconciler.Claim | src/chat_updater.rs:806-815 | A claim on the dedup set is the model's claim on the claim history |
| SequenceReconcilers.SequenceReconciler.NoteCenter | src/chat_updater.rs:2577-2580 | A MOUNT-CENTER event waits to be matched by a poll |
| SequenceReconcilers.SequenceReconciler.RevokeScope | src/chat_updater.rs:2449-2490 | A privacy marker drops the operations of its scope, a mount one the unmatched center event too |
| SequenceReconcilers.SequenceReconciler.Reconcile | src/chat_updater.rs:1673-1955 | The two in-place walks reach the state and deliver the notifications of the model's poll |
| SequenceReconcilers.SequenceReconciler.WalkTracked | src/chat_updater.rs:1752-1886 | The walk over tracked keys, in whatever order the map yields them |
| SequenceReconcilers.SequenceReconciler.AdvanceOne | src/chat_updater.rs:1753-1886 | One tracked key: suppressed, vanished, replaced, ended or still active |
| SequenceReconcilers.SequenceReconciler.WalkIncoming | src/chat_updater.rs:1888-1927 | The walk over newly active keys |
| SequenceReconcilers.SequenceReconciler.BeginOne | src/chat_updater.rs:1889-1926 | One newly active key, silent when its center event was already announced |
| SequenceReconcilers.SequenceReconciler.Deliver | src/chat_updater.rs:1929-1954 | Exactly the enabled notifications of an announced poll reach chat |
| Autofocus.Deduplicated | src/chat/mod.rs:252-261 | The channels of a target, each once, none lost, in order of first appearance |
| AutofocusRuns.QueueHoldsAtMostOne | src/chat_updater.rs:3210-3509 | After any run the queue holds at most one delivery, within its attempt budget and due again by its deadline |
| AutofocusRuns.DeadlineEmptiesTheQueue | src/chat_updater.rs:3276-3509 | Whatever reads and chat do, a completion polled at its deadline leaves the queue |
| AutofocusRuns.CompletionHasOneVerdict | src/chat_updater.rs:3276-3569 | No completion yields both a graph and the notice that its report is unavailable, and none is acknowledged while it waits |
| AutofocusRuns.AttemptReads | src/chat_updater.rs:3286-3326 | An attempt reads the report at most once, and never at or past the deadline |
| AutofocusRuns.ReadsAreBounded | src/chat_updater.rs:3304-3509 | In any mix of outcomes and under any policy the reads keep to the backoff schedule; a not-ready time shorter than the whole window can put one read ahead of it |
| AutofocusRuns.DefaultReadsAtMostEighteenTimes | src/chat_updater.rs:48-54 | Under the default policy at most 18 reads per completion |
| AutofocusRuns.ScheduleIsAttained | src/chat_updater.rs:3428-3469 | Polled exactly when each read falls due, a report never ready is read again as long as the next read starts in time |
| AutofocusRuns.SomeRunReads | src/chat_updater.rs:3276-3469 | For every number of reads the schedule allows some run issues exactly that many |
| AutofocusRuns.DefaultInTime | src/chat_updater.rs:48-54 | Under the default policy exactly the first 18 reads of the schedule start before the deadline |
| AutofocusRuns.DefaultReachesEighteen | src/chat_updater.rs:48-54 | Some run under the default policy issues exactly 18 reads, so the bound is met |
| AutofocusReceipts.RunsKeepTheLedger | src/chat_updater.rs:4613-4698 | Over any run with restarts, route changes, failed sends and failing stores, receipts are exactly those of recorded sends and no send repeats a receipted one |
| AutofocusReceipts.EachChannelHearsOnce | src/chat_updater.rs:4613-4698 | Per channel and report: one accepted send per unwritten receipt plus at most one; none once receipted; at most one when every receipt is written |
| AutofocusReceipts.StoreErrorReadsNothing | src/chat_updater.rs:3286-3302 | A store that cannot be read before the report stops the whole attempt |
| AutofocusReceipts.StoreErrorSendsNothing | src/chat_updater.rs:4659-4660 | A store that cannot be read before the send stops every receipted message |
| AutofocusReceipts.StoreErrorAfterReadSendsNothing | src/chat_updater.rs:4641-4652 | A store that cannot be read once the report is in hand stops graph and notice alike |
| AutofocusReceipts.AcknowledgedIsBacked | src/hub/autofocus_delivery.rs:50-70 | After an acknowledgement a channel holds its receipt exactly when it held one before or has a route when the receipt is written |
| AutofocusReceipts.AcknowledgedMeansReceipted | src/chat_updater.rs:4700-4716 | While routes stand, over any run, acknowledged reports are receipted in every configured channel |
| AutofocusReceipts.AcknowledgedWithoutReceipt | src/hub/autofocus_delivery.rs:50-70 | The failing family: a route removed during the send is acknowledged without a receipt |
| AutofocusQueues.AutofocusQueue.constructor | src/chat_updater.rs:1369 | The queue starts empty; receipts come from the store |
| AutofocusQueues.AutofocusQueue.HandleFinished | src/chat_updater.rs:3210-3270 | A newer completion replaces whatever was waiting |
| AutofocusQueues.AutofocusQueue.FindTargets | src/chat_updater.rs:4613-4639 | The loop over channels finds exactly those without a receipt |
| AutofocusQueues.AutofocusQueue.SendToChannels | src/chat_updater.rs:4661-4696 | The send loop: a rejection spoils the pass but not the rest of it, an unwritten receipt stops it |
| AutofocusQueues.AutofocusQueue.Send | src/chat_updater.rs:4654-4698 | One message, receipted in hub mode and best effort locally |
| AutofocusQueues.AutofocusQueue.SendReport | src/chat_updater.rs:4641-4652 | The report, unless every channel already has it |
| AutofocusQueues.AutofocusQueue.SendUnavailable | src/chat_updater.rs:3511-3569 | The terminal notice, withheld once the report was in hand |
| AutofocusQueues.AutofocusQueue.ExpireIfTimedOut | src/chat_updater.rs:3403-3426 | Gives up exactly at the overall deadline |
| AutofocusQueues.AutofocusQueue.RetryDelivery | src/chat_updater.rs:3471-3509 | The charged retry |
| AutofocusQueues.AutofocusQueue.RetryWhenReady | src/chat_updater.rs:3428-3469 | The free retry while the report is being published |
| AutofocusQueues.AutofocusQueue.RetryWhenAvailable | src/chat_updater.rs:3330-3356 | The free retry while the rig is unreachable |
| AutofocusQueues.AutofocusQueue.HandleReport | src/chat_updater.rs:3365-3378 | Delivers the matching report, and retries what chat or the store refused |
| AutofocusQueues.AutofocusQueue.HandleRead | src/chat_updater.rs:3319-3400 | The three failure classes of a read, and the exact-report check |
| AutofocusQueues.AutofocusQueue.AttemptDelivery | src/chat_updater.rs:3285-3401 | Receipts before the deadline, the deadline before the read |
| AutofocusQueues.AutofocusQueue.Poll | src/chat_updater.rs:3276-3285 | At most one due delivery is taken and attempted |
| SchedulerWait.LastWriterWins | src/chat_updater.rs:999-1067 | For distinct dated transitions the final wait and watermark are those of the newest, if it is news at all |
| SchedulerWait.OrderAndRedeliveryDoNotMatter | src/chat_updater.rs:999-1067 | Permuting or redelivering the transitions changes nothing |
| SchedulerWait.WatermarkNeverDecreases | src/chat_updater.rs:1025-1067 | The watermark never moves back, privacy clears included |
| SchedulerWait.NewsAfterRevocation | src/chat_updater.rs:1025-1038 | Exactly which wait is announced again after a revocation |
| SchedulerWait.OlderHistoryStaysRedacted | src/chat_updater.rs:1025-1038 | Enabled history from before a dated revocation cannot bring the redacted wait back |
| SchedulerWait.WaitRegister.AcceptTransition | src/chat_updater.rs:1055-1067 | Accepts exactly what is not older than the watermark |
| SchedulerWait.WaitRegister.RecordSchedulerWait | src/chat_updater.rs:999-1019 | The in-place update is the register's write |
| SchedulerWait.WaitRegister.ClearSchedulerWaitsAt | src/chat_updater.rs:1040-1053 | A terminal event clears what it is not older than |
| SchedulerWait.WaitRegister.ClearSchedulerWaitsForPrivacy | src/chat_updater.rs:1025-1038 | A privacy clear always clears and never lowers the watermark |
| ScopeTable.TableIsTheCascade | src/events.rs:1340-1402 | The scope of each of the 72 listed names is the one its wire text falls through to in the prefix and suffix cascade |
| EventState.RevokeIsLocal | src/chat_updater.rs:2430-2535 | A marker blanks its own scope and leaves the fields of every other scope untouched, except that an image marker takes the queued image summaries along |
| EventState.ApplyIsOwned | src/chat_updater.rs:2537-2776 | An enabled event brings content to its own scope only; elsewhere it may clear but never invent or replace |
| EventState.GrowthElsewhereKeepsBlank | src/chat_updater.rs:2537-2776 | What belongs to another scope cannot make a blank one known |
| Batches.WalkIgnoresRedacted | src/chat_updater.rs:2919-2971 | Any walk that honours later markers and reads only their time and scope cannot see what they withdraw |
| Batches.RedactRedacts | src/chat_updater.rs:2919-2971 | Deleting every withdrawn event and replacing all marker details is such a redaction |
| Batches.PrivacyBoundaries | src/chat_updater.rs:2923-2930 | The table holds the index of the last marker of each scope |
| Batches.BoundaryIsObsolete | src/chat_updater.rs:2931-2939 | Looking an event up in that table is asking whether a later marker withdraws it |
| EventProcessing.LiveLeaksNothing | src/chat_updater.rs:2919-2982 | Live processing reaches the same state, deliveries, budgets and drop counts with every withdrawn event deleted and all disabled details replaced |
| EventProcessing.BaselineLeaksNothing | src/chat_updater.rs:2793-2896 | The same for the baseline |
| EventProcessing.KnownOnlyWhileGranted | src/chat_updater.rs:2430-2982 | In every state a new updater can reach a scope is known, queued image summaries included, only if an enabled event of it was applied since its last applied revocation; and at most eight summaries are queued |
| EventRuns.RedeliveryIsSilent | src/chat_updater.rs:1234-1252 | A response polled again, within the dedup capacity, changes no state and delivers no event; only the notice of earlier drops may follow, when due |
| DropLoss.OldMarkersLoseDrops | src/chat_updater.rs:2924-2930 | Of a history polled again, every pending count is announced or kept, unless the history carries a marker of its scope: then it is lost |
| DropLoss.LostDrop | src/chat_updater.rs:2924-2957 | An applied marker still in the history and a later drop of its scope: counted by the first poll, forgotten unsaid by the second |
| EventRuns.EachEventIsHandledOnce | src/chat_updater.rs:2919-2971 | Over any run of overlapping histories of at most 20,000 events each event is admitted or dropped at most once, and exactly once where no baseline intervenes |
| EventRuns.WaitIsTheRegister | src/chat_updater.rs:999-1067 | Over any run the updater's scheduler wait is the register its applied transitions write |
| EventRuns.NewestTransitionDecides | src/chat_updater.rs:999-1067 | After any run of dated enabled history a new updater waits as its newest transition says |
| CenterMarks.AppliedCenterMark | src/chat_updater.rs:2577-2580 | Events set the status's and the reconciler's center mark alike |
| CenterMarks.RevokedCenterMark | src/chat_updater.rs:2449-2452 | Privacy markers clear it alike |
| ChatUpdaters.ChatUpdater.constructor | src/chat_updater.rs:946-993 | Starts with initial state and empty dedup sets |
| ChatUpdaters.ChatUpdater.PollEvents | src/chat_updater.rs:2900-2917 | One poll: counters, markers, events and the notice, in that order |
| ChatUpdaters.ChatUpdater.SeedEvents | src/chat_updater.rs:2317-2328 | The first response: counters as baseline, events in silence |
| ChatUpdaters.ChatUpdater.PollImages | src/chat_updater.rs:3789-3870 | An image poll extends, clears and releases the queued image summaries as the model does |
| ChatUpdaters.ChatUpdater.ExtendSummaries | src/chat_updater.rs:3839-3852 | Every new frame keeps the summaries it belongs to waiting |
| ChatUpdaters.ChatUpdater.KeepWaiting | src/chat_updater.rs:3864-3869 | Only summaries not ready yet stay queued, in order |
| ChatUpdaters.ChatUpdater.ProcessLiveEvents | src/chat_updater.rs:2919-2982 | The two loops and the notice reach the state, deliveries, budgets and drop counts of the model |
| ChatUpdaters.ChatUpdater.RevokeDisabled | src/chat_updater.rs:2924-2930 | The first loop discards the pending counts of every marked scope |
| ChatUpdaters.ChatUpdater.WalkEvents | src/chat_updater.rs:2931-2971 | The second loop with its boundary table is the walk over the batch |
| ChatUpdaters.ChatUpdater.ProcessBaselineEvents | src/chat_updater.rs:2793-2896 | The baseline loop, including the newest scheduler target |
| ChatUpdaters.ChatUpdater.ProcessMarker | src/chat_updater.rs:2944-2949 | A live tombstone revokes its scope only the first time |
| ChatUpdaters.ChatUpdater.ProcessEnabled | src/chat_updater.rs:2951-2970 | Usability, dedup, flood control with its drop count, then handling, which also queues image summaries |
| ChatUpdaters.ChatUpdater.SeedMarker | src/chat_updater.rs:2811-2825 | The baseline reapplies a tombstone every time |
| ChatUpdaters.ChatUpdater.SeedEnabled | src/chat_updater.rs:2827-2889 | Seeds state without deliveries |
| FrameHistory.SortIsStable | src/frame_history.rs:87 | The sort is ordered, a permutation and keeps arrival order among equal capture times |
| FrameHistory.OldestIsExpendable | src/frame_history.rs:84-92 | A point that expired, or that enough newer ones follow, never matters again |
| FrameHistory.EarlierTrimIsInvisible | src/frame_history.rs:84-92 | Trimming earlier changes no later answer, with or without another frame |
| FrameHistory.RollingIsBatch | src/frame_history.rs:19-93 | Over any run, options changing included, the points kept step by step are one trim over everything accepted since charts were last off or cleared: last 24 hours, stable sort, newest 2,000 |
| FrameHistory.ChartEveryNFrames | src/frame_history.rs:19-77 | A chart is due exactly when a group of n live light frames was completed since the last one was taken; the remainder carries over and new options start over |
| FrameHistory.LightFrameHistory.constructor | src/frame_history.rs:10-16 | Empty, everything off |
| FrameHistory.LightFrameHistory.Configure | src/frame_history.rs:19-29 | New options reset the cadence, disabling clears everything |
| FrameHistory.LightFrameHistory.Clear | src/frame_history.rs:31-35 | Forgets points and cadence |
| FrameHistory.LightFrameHistory.Record | src/frame_history.rs:39-73 | Rejected frames change nothing; accepted ones are appended, trimmed and counted |
| FrameHistory.LightFrameHistory.TakePeriodicDue | src/frame_history.rs:75-77 | A due chart is taken once |
| FrameHistory.LightFrameHistory.Snapshot | src/frame_history.rs:79-82 | Returns the points as trimmed now |
| FrameHistory.LightFrameHistory.TrimPoints | src/frame_history.rs:84-92 | The in-place trim |
| ChartSegments.SplitIsSplit | src/charts.rs:707-721 | The cut is lossless, gap-free and maximal |
| ChartSegments.SplitIsUnique | src/charts.rs:707-721 | No other cut is |
| ChartSegments.ContiguousFiniteRuns | src/charts.rs:707-721 | The loop computes that cut at the samples that are not finite, with original indices |
| ChartSegments.FilterSegments | src/charts.rs:598-618 | The loop computes that cut at gaps and filter changes, each segment in its filter's colour |
| WindowLimiter.KeysAreIndependent | src/hub/rate_limit.rs:33-47 | A key's answers are those of a limiter of its own: neither other keys nor eviction ever show |
| WindowLimiter.BlockedForetellsRefusal | src/hub/rate_limit.rs:23-47 | Exactly when `blocked` and a refusing `check` agree: always for a positive limit |
| WindowLimiter.WindowAdmitsWhatIsLeft | src/hub/rate_limit.rs:41-46 | While a window lasts it admits exactly what is left of the limit |
| WindowLimiter.AtMostTwiceTheLimit | src/hub/rate_limit.rs:33-47 | At most twice the limit in any half-open interval of one window length |
| WindowLimiter.RateLimiter.constructor | src/hub/rate_limit.rs:14-20 | No hits |
| WindowLimiter.RateLimiter.Blocked | src/hub/rate_limit.rs:23-30 | Reads the map without recording a hit |
| WindowLimiter.RateLimiter.Check | src/hub/rate_limit.rs:33-47 | Evicts, restarts an expired window, counts and answers |
| Reachability.StateIsTrailingFailures | src/chat_updater.rs:1482-1544 | After the baseline the rig counts as connected exactly while fewer than 3 cycles failed in a row, and the delay is min(initial * 2^k, max(initial, max)) |
| Reachability.AlertsAlternate | src/chat_updater.rs:1517-1544 | Offline and online alerts strictly alternate, starting with offline |
| Reachability.UpdateLoop.constructor | src/chat_updater.rs:1482-1488 | Connected, with the initial delay |
| Reachability.UpdateLoop.RecordReachability | src/chat_updater.rs:1517-1544 | The in-place counters and the alert they raise |
| Reachability.UpdateLoop.Cycle | src/chat_updater.rs:1489-1510 | One cycle, with the backoff it leaves |

## Left out

- Message wording, embeds, colours, attachments and log lines; an act of the log names what is sent, not how it reads.
- HTTP, Discord, Matrix, named pipes, SQLite and task scheduling: parameters of each step, as said above.
- Decoding of the wire payloads; the elision validator starts from entries that did or did not decode.
- Parsing of timestamps: a stamp carries the instant its text names, if any.
- Hashing: fingerprints and dedup keys are taken as injective.
- `f64` rounding: bucket levels are scaled integers and progress is a rational rounded half up, both exact; temperatures are reals.
- Wrap-around of the `u32` window count, the `u32` failure and attempt counts and the `u64` sequence number; the saturating `u64` elision counters are modelled.
- AutofocusReceipts.EachChannelHearsOnce: an accepted send is one that chat reports as successful, so a message taken by one service and refused by another counts as not accepted.
- Stale legacy completions: ignored in event processing by a flag and an age; the autofocus queue starts after that check.
- EventProcessing.KnownOnlyWhileGranted: the meridian flip time, container counts, last image time and skipped-image count are set by sequence and image polls alone, never by an event, and are not modelled; tracked operations and frames are, in the reconciler and the frame history.
- Targets reconciled from the sequence tree, the expiry of a scheduler target and the status message fingerprint.
- Camera-trigger annotations of the reconciler, which only add hub targets to notifications.
- One clock reading and one filter-wheel answer per batch of events.
- Plotting; the segment loop starts from elapsed seconds and values.
