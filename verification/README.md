# Verified model of the fan-out publisher

A Dafny model of the parts of the publisher whose correctness depends on more than one function at
a time, with proofs that hold for every input, every interleaving and every run. `dafny verify
dfyconfig.toml` checks the whole project.

**Renditions** (`RenditionRows`, `RenditionProtocol`, `RenditionSafety`, `RenditionResults`,
`Renditions`). Any number of workers race to prepare one rendition under leases and claim tokens.
Each transaction, each call to the object store and each reading of the clock is a step of its own
-- a transaction compares against a time read before it got its row lock -- and a worker may crash
between any two. The invariant gives fencing, agreement, and an account of every stored object. One
hazard is found and delimited exactly: an exception after `_mark_ready` has committed (leaving the
temporary directory is inside the try block) makes the handler delete the READY row's object.
`Renditions` has the same transactions as methods of a class, and one call with nobody else
at work but for the insert race.

**Publish jobs** (`JobMachine`, `JobLaws`, `JobLife`, `JobSystem`, `JobFanOut`, `JobErase`, `JobAlone`,
`JobResults`, `JobService`). A job and its outstanding work form a small machine; the whole system is
a table, a queue of work and the API's requests, interleaved at will. Every job's share of any system run is
proved to be a run of the machine, so that conservation of work, the bounds and independence of
siblings need proving only once. Losing a unit of work is a step too: a crashed worker, a failed
enqueue, or a transport error that escapes a poll. `JobService` has the requests and tasks as
methods of a class, proved to do what the machine's steps say.

**Schedule** (`StableSort`, `Backlog`, `BacklogQuery`, `Slots`, `Schedule`, `ScheduleRuns`).
Release order, firing times, the plan and the tick. The preview's promise to be the release order
is false in general; the exact condition is proved, and with it when the plan predicts a whole run.

**Transfers** (`ChunkPlan`, `Retries`, `Uploads`, `PhasedUpload`). Chunk arithmetic, ranged reads,
retried sends and the three upload loops. The phased loop is followed for any server whose next
start is what it holds: when it ends, when the file is then there, and when it never ends. Ranges
follow section 14 of RFC 9110.

**Tokens** (`TokenRefresh`, `Tokens`). Refresh under a row lock with refresh tokens that work once
(section 6 of RFC 6749), with every way of losing a rotation between the provider and the commit.

**Captions** (`CaptionText`, `CaptionTemplate`). The template expander as a single leftmost pass,
and tidying and cutting as a normaliser with a length bound.

`Options` and `Platforms` hold shared datatypes.

Where the code and its own text disagree, the model follows the code:

- `sau/schedule.py:140-142` says the preview is the exact release order; it is so exactly for
  settled backlogs (`Backlog.DrainIsPreview`).
- `sau/queue/tasks.py:30-31` says the attempt bound also covers a worker that died mid-transfer; a
  job whose worker died has no work left and is never attempted again
  (`JobLife.WorkerDeathStrandsTheJob`).
- `sau/platforms/tiktok/publisher.py:62-64` says chunks are 5-64 MiB and the last absorbs the
  remainder; a file smaller than the preferred chunk is announced with a chunk size larger than
  itself (`ChunkPlan.ShortFileGetsAnOversizedChunk`).
- `sau/renditions.py:390-391` discards a claim's object on any exception, one after the commit
  included (`RenditionResults.ReadyRowNamesItsObject`).
- `sau/platforms/facebook/publisher.py:100-102` says a retry reads the offset back from the server;
  when the server gives none, line 127 falls back to the job's own counter, which belongs to an
  earlier session (`Uploads.FallbackLeavesAGap`).
- `sau/platforms/facebook/publisher.py:135-137` has the loop follow the windows until they converge;
  they may converge before the end of the file, which is published all the same
  (`PhasedUpload.PublishedWithoutAByte`), or never (`PhasedUpload.IdleServerNeverLetsGo`).

Assumptions: transactions are atomic and API requests serial; the clock does not go back; claim
tokens, job ids and refresh tokens are fresh; rows are not deleted but by unscheduling; each zone
has a constant offset; the query returns rows in one fixed order; a receiver that reports success
has the bytes; the recorded size of an object is its size. Clock readings, what platforms and
stores answer, and where crashes fall are parameters or steps, and the theorems hold for all of
them.

## Model

| member | source | states |
|---|---|---|
| RenditionRows.ClaimKeyDeterminesToken | sau/renditions.py:70-75 | two claims, of one row or of different rows, never share an object key |
| RenditionRows.ClaimKeyIs | sau/renditions.py:70-75 | a claim's object key consists of its asset, its platform's name and its token, whatever the profile's name contains |
| RenditionSafety.StepKeeps | sau/renditions.py:109-398 | every step of every worker -- claim, upload, finalise, discard, mark failed, crash -- and the passing of time keep the protocol's invariant |
| RenditionSafety.RunKeeps | sau/renditions.py:109-398 | so the invariant holds after every run, for any number of workers and any interleaving |
| RenditionResults.ReadyRowNamesItsObject | sau/renditions.py:254-398 | a READY row was finalised by one worker after its output was accepted and uploaded; it names that worker's object with its size, and the object is missing if and only if that worker raised between commit and return and its handler's delete worked |
| RenditionResults.ReadyObjectsAreStored | sau/renditions.py:254-364 | without such a raise every READY row's object is in the store with the row's size |
| RenditionResults.CleanupCanLoseAnyReadyObject | sau/renditions.py:347-391 | from every commit, an exception before the return can leave the READY row without its object |
| RenditionResults.ReadyRowCanLoseItsObject | sau/renditions.py:314-398 | a whole run, from an empty system, in which that happens |
| RenditionResults.ClaimFinishes | sau/renditions.py:347-379 | a worker whose lease holds and whose output is accepted makes its row READY |
| RenditionResults.ClaimFails | sau/renditions.py:381-398 | a worker that fails with its lease still held marks its row FAILED, with the message cut to 2000 characters |
| RenditionResults.ClaimsAreRefused | sau/renditions.py:127-144 | a claim on a row under a live lease is refused, and one on a READY row leads to the second read |
| RenditionResults.ReadyIsFinal | sau/renditions.py:127-144 | once READY, a row never changes again |
| RenditionResults.ReturnsTheReadyRow | sau/renditions.py:314-379 | whatever a call has returned is what the READY row still says, however much later |
| RenditionResults.CallsAgree | sau/renditions.py:314-379 | any two calls for one asset, platform and profile that return, return the same key and size |
| RenditionResults.SecondReadFindsReady | sau/renditions.py:316-329 | the second transaction of a call that found the row READY finds it READY, and returns its key and size |
| RenditionResults.OneClaimant | sau/renditions.py:127-209 | at most one worker holds a claim on a row that it could still finish |
| RenditionResults.RowChangesAreFenced | sau/renditions.py:127-311 | a row changes only by a claim, made when the row was neither READY nor under a live lease by the claimant's clock reading, or by the end of the latest claim while its lease is live by the reading it ends with |
| RenditionResults.ObjectChangesAreOwn | sau/renditions.py:365-391 | an object is stored, replaced or deleted only by the worker whose claim its key names |
| RenditionResults.SupersededWorkerChangesNoRow | sau/renditions.py:194-311 | a worker that did not make the latest claim of its row changes no row, whatever its clock reading |
| RenditionResults.StaleWorkerChangesNoRow | sau/renditions.py:212-311 | nor does one whose lease has lapsed by the reading it ends its claim with |
| RenditionResults.EveryObjectAccounted | sau/renditions.py:365-398 | every stored object is a READY row's, or belongs to a worker (crashed or not) between upload and discard, or to one whose delete failed |
| RenditionResults.CleanEndLeavesReadyObjects | sau/renditions.py:365-398 | when every worker has ended by itself, every delete worked and nothing raised after a commit, the store holds the READY rows' objects and no others |
| RenditionResults.RowsNameDifferentObjects | sau/renditions.py:74-75 | no two rows name the same object |
| RenditionResults.FailedRowsHaveNoObject | sau/renditions.py:381-398 | then a FAILED row's key names no object |
| RenditionResults.RowsCanBeReclaimed | sau/renditions.py:135-197 | whoever crashed holding it, a row that is not READY is claimed by a new call once a lease's length has passed |
| Renditions.RenditionTable.ClaimPreparation | sau/renditions.py:109-209 | `asset_not_found`, `rendition_claim_race` and `rendition_in_progress` each exactly when it is due; otherwise the READY row, or a claim for 7200 seconds and every column of its row, the lost insert race included |
| Renditions.RenditionTable.MarkReady | sau/renditions.py:254-311 | updates the row, and the asset's probed data, exactly when the claim is current and its lease live |
| Renditions.RenditionTable.MarkFailed | sau/renditions.py:212-251 | marks the row FAILED exactly when the claim is current and its lease live |
| Renditions.RenditionTable.Produce | sau/renditions.py:339-379 | the part inside the try block finishes exactly when the source is allowed, the output is in range, the upload works, the lease holds at the second reading and the clean-up does not raise; exactly when it ends stale; its row and store in every case |
| Renditions.RenditionTable.Recover | sau/renditions.py:381-398 | the exception handlers: the object is discarded, and only a failure that is not a stale claim is recorded |
| Renditions.RenditionTable.FinishClaim | sau/renditions.py:338-398 | exactly when a call with a claim returns, which of READY, FAILED and PROCESSING its row ends in, and what it leaves in the store |
| Renditions.RenditionTable.PrepareRendition | sau/renditions.py:314-398 | a whole call returns exactly when it finds the row READY or makes a claim and finishes it, with the READY row's key and size; each error it can raise has its exact condition on the old state and the world's answers; row and store in every case |
| Renditions.WhatACallComesTo | sau/renditions.py:212-398 | what a call with a claim comes to, in numbers: files of up to 8 GiB, a lease of 7200 seconds, the row's last state and the store; and which errors can be retried |
| JobMachine.RunKeepsSound | sau/queue/tasks.py:55-231 | in every run a job has at most one unit of work outstanding, for the state the row is in, and at most three attempts |
| JobLife.WorkIsConserved | sau/queue/tasks.py:55-253 | without losses a PENDING, UPLOADING or PROCESSING job has exactly one unit of work outstanding and any other job none |
| JobLife.StrandedIffLost | sau/queue/tasks.py:115-231 | a job is active with nothing outstanding if and only if a unit of its work was lost |
| JobLife.StrandedForever | sau/api/main.py:249-268 | and then no worker step and no request can ever apply to it, the retry included |
| JobLife.WorkerDeathStrandsTheJob | sau/queue/tasks.py:30-32 | for one, a worker that dies in its first transfer: the job stays UPLOADING with two attempts unused |
| JobLife.ActiveJobsCanMove | sau/queue/tasks.py:144-253 | until then an active job always has a step to take, and no request applies to it |
| JobLife.ClaimsSucceed | sau/queue/tasks.py:62-90 | the declining branches of the claim, the exhausted one included, are never taken |
| JobLife.DispatchFindsTheJob | sau/queue/tasks.py:234-253 | outstanding work always finds its job's row |
| JobLife.PollsFindAnExternalId | sau/queue/tasks.py:191-200 | a poll finds its job PROCESSING, and fails it for want of an external id only if the platform's id was empty |
| JobLife.StepsUseUpTheMeasure | sau/queue/tasks.py:144-231 | every worker step but a progress report brings the job strictly nearer to its end |
| JobLife.RunsAreBounded | sau/queue/tasks.py:32-36 | with n retries by the operator: at most 3(n + 1) runs, 80(n + 1) polls, n + 1 hand-overs and 173(n + 1) steps besides progress reports |
| JobLife.RunsEndSettled | sau/queue/tasks.py:144-231 | a run that cannot go on by itself has left its job settled |
| JobLife.ProcessingStaysHandedOver | sau/queue/tasks.py:184-231 | from PROCESSING on, nothing but a retry leads back to a claim or a hand-over |
| JobLaws.RowTellsTheRun | sau/queue/tasks.py:55-231 | after every run a job is PUBLISHED exactly when the latest hand-over or settled poll said so and SCHEDULED exactly while it waits for its release; its attempts are the claims since its last retry, its external id and offset the latest given |
| JobLaws.SettledPollIsRecorded | sau/queue/tasks.py:213-222 | what a settled poll answers is what the row then says, with the URL known before if it brings none, and for good if it is PUBLISHED |
| JobFanOut.HistoryIsARunOfOneJob | sau/api/main.py:249-268 | what happens to a job in any run of the whole system is a run of the one-job machine, with the same row and the same outstanding work |
| JobFanOut.SiblingsDoNotMatter | sau/queue/tasks.py:55-231 | two runs that differ only in what they do to other jobs leave this job alike |
| JobErase.AnyJobCanBeDropped | sau/api/main.py:249-268 | drop everything that is about one job from a run -- its target, its requests, its steps, its losses -- and what is left is a run in which every other job has the same acts, row and work |
| JobAlone.SiblingsCanBeRemoved | sau/queue/tasks.py:55-231 | and so when all the others are dropped: a run of the one job alone has its history |
| JobResults.WorkOfEachJob | sau/queue/tasks.py:55-253 | conservation for every job of every run of the whole system, lost work included |
| JobResults.QueuesHoldEachActiveJobOnce | sau/queue/tasks.py:234-253 | without losses the queues hold exactly the active jobs, each once |
| JobResults.LostJobsNeverMoveAgain | sau/queue/tasks.py:191-231 | a job whose work was lost keeps its row through everything that happens later |
| JobResults.OneJobPerAssetAndPlatform | sau/api/main.py:106-125 | no run has two jobs for one asset and platform |
| JobService.Service.Publish | sau/api/main.py:95-144 | accepted exactly when acceptable, 404 and 409 exactly when due; each target then has a new job with every column as it should be, each is dispatched once unless scheduled, and no other job changes |
| JobService.Service.AnyDuplicate | sau/api/main.py:106-112 | finds a target the asset already has a job for, if and only if there is one |
| JobService.Service.ReleaseAsset | sau/api/main.py:170-196 | exactly the asset's SCHEDULED jobs become PENDING and are dispatched once each; 404 and 409 otherwise |
| JobService.Service.UnscheduleAsset | sau/api/main.py:199-212 | exactly the asset's SCHEDULED jobs are deleted |
| JobService.Service.RetryJob | sau/api/main.py:249-268 | a FAILED job starts afresh with its external id kept; 404 and 409 otherwise |
| JobService.Service.Dispatch | sau/queue/tasks.py:234-253 | each job there is gets exactly one more run on its queue and no other job does; the ids of no job are reported, and no others |
| JobService.DispatchSplitsIds | sau/queue/tasks.py:234-253 | what is found is each existing job exactly once, and what is reported exactly the rest |
| JobService.DispatchTakesItsSteps | sau/queue/tasks.py:234-253 | in any run of the system, taking up the dispatches of these jobs step by step leaves the queue as that method does |
| JobService.Service.Claim | sau/queue/tasks.py:55-90 | the claim's new row, and the attempt it returns or declines to return |
| JobService.Service.RecordFailure | sau/queue/tasks.py:115-127 | the row after a platform error, and whether the job is queued again |
| JobService.Service.RecordStarted | sau/queue/tasks.py:130-138 | the row after a hand-over |
| JobService.Service.RunPublishJob | sau/queue/tasks.py:144-188 | one undisturbed run is the composition of the machine's steps: the row it leaves and the work it queues |
| JobService.Service.PollPublishJob | sau/queue/tasks.py:191-231 | one undisturbed poll: what it records and queues for each answer of the platform and each state of the row; it is the composition of the machine's steps |
| JobService.RunOnceSettlesOrRequeues | sau/queue/tasks.py:144-188 | a run with attempts left: every column of the row and the work queued, for each way the transfer can end -- PROCESSING with a first poll queued, PUBLISHED, queued again (only before the third attempt) or FAILED |
| JobService.RunOnceDeclines | sau/queue/tasks.py:62-90 | no row, a settled job and a scheduled one are left alone; a fourth attempt fails the job |
| JobService.PollOnceRecordsTheAnswer | sau/queue/tasks.py:202-231 | a poll records the platform's verdict as it is, fails the job on a lasting error or after the eightieth poll, and otherwise queues the next one |
| StableSort.StableSortUnique | sau/schedule.py:194 | a list that is ordered and keeps the order of equal keys is the only one, so the sort used here is Python's |
| Backlog.DrainIsPreview | sau/schedule.py:137-194 | for every backlog: releasing one head at a time, with anchors recomputed after each release, repeats the preview if and only if the preview is settled |
| Backlog.DrainIsPreviewAtBoundaries | sau/schedule.py:181-194 | with distinct queue times across units: if and only if, wherever the preview passes to another unit, the closing group was queued before all of that unit |
| Backlog.DisjointSpansDrainPreview | sau/schedule.py:169-194 | so whenever no group was queued inside another unit's span |
| Backlog.PreviewCanDisagree | sau/schedule.py:140-142 | the docstring's unconditional claim fails for part 1 at 10, part 2 at 30 and a standalone at 20 |
| Backlog.DrainInEpisodeOrder | sau/schedule.py:181-194 | whatever the queue times and part numbers, a series' parts are released in non-decreasing part number |
| Backlog.DrainInStrictEpisodeOrder | sau/models.py:305 | strictly increasing, with the part numbers of a series unique as the table requires |
| Backlog.DrainPermutes | sau/schedule.py:137-166 | the drain releases the backlog, every group once |
| Backlog.PreviewOrder | sau/schedule.py:169-194 | the preview is the backlog rearranged: standalones oldest first, the parts of a series in episode order |
| Backlog.PreviewPlacement | sau/schedule.py:169-192 | of two entries of the preview, the earlier one's unit -- its series, or itself -- was first queued no later than the other's |
| Backlog.PreviewContiguous | sau/schedule.py:172-192 | a series is held together in the preview when different series start at different times and parts are numbered from 1 |
| Backlog.OrderGroups | sau/schedule.py:181-194 | the two loops that fill `earliest` and the sort keys, and the sort, give that preview |
| BacklogQuery.GroupsFaithful | sau/schedule.py:153-164 | one group for each asset with scheduled jobs, holding exactly those jobs |
| BacklogQuery.JobsOfAre | sau/schedule.py:164 | those jobs are the asset's scheduled rows, none missing, none repeated, in the order of the query |
| BacklogQuery.GroupsBearTheirParts | sau/schedule.py:155-163 | each group bears the queue time of its asset's first scheduled job, and the asset's part if and only if it has one |
| BacklogQuery.OrderedBacklog | sau/schedule.py:137-166 | the loop over the query's rows and the dictionary of groups give the preview, cut to the limit; in terms of rows and parts: one entry an asset, with all its jobs, the lower part of a series first, standalones oldest first |
| BacklogQuery.DrainInPartOrder | sau/schedule.py:181-194 | of two assets of one series in the drain of any table of rows, the one with the lower part number in the table of parts comes first |
| BacklogQuery.ReleaseRemovesGroup | sau/api/scheduling.py:142-145 | releasing an asset removes its group and leaves every other group, and their order, alone |
| BacklogQuery.ReleaseHeadDrains | sau/api/scheduling.py:133-147 | the head of the preview is the head of the drain, and releasing it leaves in the rows the rest of the drain |
| Slots.FiresAtItsWallClockTime | sau/schedule.py:75 | a slot fires at the instant of a date at which its own wall clock shows its hour and minute |
| Slots.DueSlotsExact | sau/schedule.py:54-89 | due are exactly the slots that are enabled, have not fired today, and whose time came today no longer ago than the grace period; listed once each, in the order of the clock, ties as in the table |
| Slots.UpcomingExact | sau/schedule.py:92-118 | exactly the `count` least firings after now, with multiplicity, of all enabled slots in any zones, for ever |
| Slots.UpcomingAreFirings | sau/schedule.py:104-117 | every one of them is a firing of an enabled slot |
| Slots.NothingSkipped | sau/schedule.py:109-118 | and no firing of an enabled slot before the last of them is left out |
| Slots.UpcomingLength | sau/schedule.py:109-118 | there are always exactly `count` of them |
| Slots.WindowSuffices | sau/schedule.py:109-117 | count + 1 days always suffice |
| Slots.ComputeUpcoming | sau/schedule.py:103-118 | the nested loops compute that list |
| Schedule.Scheduler.ReplaceSlots | sau/api/scheduling.py:49-79 | the new table, with every fired marker cleared, and returned in clock order, ties as given |
| Schedule.Scheduler.RearmSlots | sau/api/scheduling.py:171-184 | every marker cleared and nothing else changed; an empty table is refused |
| Schedule.Scheduler.ReleasePlan | sau/api/scheduling.py:82-109 | the times are the next firings, as many as asked for up to a hundred; entry i shows asset i of the preview with its series title and part index as the table of parts has them, or is empty |
| Schedule.Scheduler.FireSlot | sau/api/scheduling.py:133-147 | one slot releases the head of the drain, or nothing when the backlog is empty |
| Schedule.Scheduler.Tick | sau/api/scheduling.py:112-168 | every release is of an enabled slot, unreleased today, within the grace period after its time; every such slot has its turn in clock order and only lacks an asset when none is left; assets come off the head of the drain, parts of a series in order; exactly the releasing slots are stamped and exactly the released assets' jobs leave the backlog |
| Schedule.FireAllQueue | sau/api/scheduling.py:133-168 | a tick releases min(due slots, backlog) assets; released and idle slots together are the due ones |
| Schedule.FireAllReleases | sau/api/scheduling.py:142-153 | the i-th release pairs the i-th due slot with the i-th asset of the drain |
| Schedule.FireAllStamps | sau/api/scheduling.py:147 | exactly the slots that released are stamped, with their own local date |
| Schedule.FireAllRows | sau/api/scheduling.py:142-145 | a job leaves the backlog exactly when its asset was released, and no other column changes |
| ScheduleRuns.DispatchedExactly | sau/api/scheduling.py:143-166 | a tick dispatches each job it took out of the backlog once, and no other |
| ScheduleRuns.TickIsTickSys | sau/api/scheduling.py:112-168 | the runs below are runs of that tick |
| ScheduleRuns.AtMostOncePerDate | sau/schedule.py:62-78 | however often it is ticked, a slot releases at most once per local date |
| ScheduleRuns.ReleasesAreReached | sau/schedule.py:67-78 | however ticks are spaced, a release is of an enabled slot on a date that some tick reached within the grace period; a date no tick reached in time is skipped for good |
| ScheduleRuns.ReleasedIffReached | sau/schedule.py:47-78 | while assets are left, a slot has released on a date if and only if it is enabled and some tick reached the date within the grace period, before its local midnight |
| ScheduleRuns.DueAfterGap | sau/schedule.py:69-78 | with a gap inside the grace window and clear of midnight, a slot is due at a tick exactly when it has fired since the last |
| ScheduleRuns.EveryDateFires | sau/schedule.py:54-78 | ticked steadily and with assets enough, a slot releases on every local date whose time came |
| ScheduleRuns.RunOnSchedule | sau/api/scheduling.py:124-147 | after any steady run the number of releases is the number of firings, capped by the backlog, in drain order |
| ScheduleRuns.PlanPredictsRun | sau/api/scheduling.py:82-147 | on a settled backlog, entry i of the plan has been released exactly when its time has come and it shows an asset, and it is that asset |
| ScheduleRuns.PlanRightIffSettled | sau/api/scheduling.py:82-147 | once the whole backlog has gone out, the plan was right about all of it if and only if the backlog was settled |
| ScheduleRuns.MarkersStayPast | sau/api/scheduling.py:49-184 | no history of ticks, replacements and re-armings makes a fired marker lie in the future |
| ChunkPlan.RefusedIffTooManyLargestChunks | sau/platforms/tiktok/publisher.py:66-80 | a file is refused exactly when it is empty or size div 64 MiB exceeds 1000 |
| ChunkPlan.PlanIsWithinLimits | sau/platforms/tiktok/publisher.py:59-82 | 1 to 1000 chunks of 5 to 64 MiB, or one chunk for a file below 5 MiB |
| ChunkPlan.PlanFollowsThePreference | sau/platforms/tiktok/publisher.py:72-82 | the preferred chunk or the nearest limit, unless that makes more than 1000 chunks; then the least that does not, up to 64 MiB; as many chunks as go into the file whole |
| ChunkPlan.RangesTileTheFile | sau/platforms/tiktok/publisher.py:59-91 | the ranges tile the file; all but the last are a whole chunk, the last is shorter than two, and at least one if and only if the clamped preference is no larger than the file (or the file is below 5 MiB) |
| ChunkPlan.ShortFileGetsAnOversizedChunk | sau/platforms/tiktok/publisher.py:62-82 | a 6 MiB file gets one chunk announced as 16 MiB, against the rule the function states |
| ChunkPlan.IterRanges | sau/platforms/tiktok/publisher.py:85-91 | the generator's loop yields those ranges |
| Uploads.IterChunks | sau/storage.py:73-84 | the loop reads the object from the start offset to its end, in order, in whole chunks but for the last; how many there are |
| Uploads.RangedReads | sau/storage.py:63-69 | a range inside the object is read as far as the object goes, one past its end fails |
| Uploads.CoverPayload | sau/storage.py:79-84 | pieces that cover a stretch of the object concatenate to it |
| Uploads.SendingAgainChangesNothing | sau/platforms/tiktok/publisher.py:184-192 | a piece sent again at its offset changes nothing |
| Uploads.Session.Send | sau/http.py:40-75 | a retried send succeeds exactly when one of its first five tries does and those before it failed retryably; the piece is stored exactly when a try that is made arrives |
| Uploads.Session.SendPiece | sau/platforms/tiktok/publisher.py:185-192 | one piece is sent, and reported, exactly when its retried send succeeds |
| Uploads.Session.SendAll | sau/platforms/tiktok/publisher.py:184-192 | the sending loop succeeds exactly when every piece's retried send does; otherwise it stops at the first that does not, with everything before it stored and reported |
| Uploads.PublishByUpload | sau/platforms/tiktok/publisher.py:171-198 | succeeds exactly when there is a plan, the upload opens and every chunk is delivered; then the payloads are the object, the receiver holds it complete, and the progress reports rose strictly to its size; a failure leaves a beginning of it |
| Uploads.PushBytes | sau/platforms/facebook/publisher.py:95-120 | succeeds exactly when every chunk from the chosen offset on is delivered; a session that held the first n bytes then holds the object if and only if the offset leaves no gap; a failure has sent a stretch from the offset on |
| Uploads.ReelCompletesIffNoGap | sau/platforms/facebook/publisher.py:104-129 | there is no gap if and only if the chosen offset -- the server's count, or the fallback -- is at most n, or n is everything |
| Uploads.FallbackLeavesAGap | sau/platforms/facebook/publisher.py:122-129 | a new session, no count from the server and a fallback from an earlier attempt: the push succeeds and the object is not there |
| Uploads.SecondByteOnly | sau/platforms/facebook/publisher.py:122-129 | for one, a file of two bytes |
| PhasedUpload.RoundsKeepPrefix | sau/platforms/facebook/publisher.py:166-179 | whatever the server takes and asks for, it holds a beginning of the file |
| PhasedUpload.TakesAByteIffSomeTryDoes | sau/platforms/facebook/publisher.py:167-173 | a retried transfer moves the server's offset exactly when it takes a byte in one of the tries |
| PhasedUpload.AbsorbsTheMost | sau/platforms/facebook/publisher.py:167-173 | the tries of one chunk leave the server with the most that any of them took |
| PhasedUpload.RoundFollowsTheAnswer | sau/platforms/facebook/publisher.py:166-179 | a round in full: what is read, what the server then holds, and that the last answer's end is the next window's |
| PhasedUpload.Server.Transfer | sau/platforms/facebook/publisher.py:167-178 | one chunk, retried up to five times: what the server then holds, when the transfer succeeds, and whose answer gives the next window |
| PhasedUpload.FollowWindows | sau/platforms/facebook/publisher.py:164-179 | the loop does what its rounds do one after the other |
| PhasedUpload.ChunkedPublish | sau/platforms/facebook/publisher.py:157-185 | success is reported exactly when the session opens, the loop ends by its own condition and the session is finished; the server then holds the file if and only if its last start is the file's size, or, unless its last window ends before it starts, if and only if that window ends there |
| PhasedUpload.CompleteIffClosedAtTheEnd | sau/platforms/facebook/publisher.py:166-184 | the same of the loop, for every server whose next start is what it holds |
| PhasedUpload.EmptyFirstWindowSendsNothing | sau/platforms/facebook/publisher.py:164-166 | a first window that ends at 0 ends the loop before a byte is sent |
| PhasedUpload.PublishedWithoutAByte | sau/platforms/facebook/publisher.py:164-185 | and such a publish of a file with content reports success |
| PhasedUpload.OnlyIdleRoundsProlong | sau/platforms/facebook/publisher.py:166-179 | after n rounds a loop that goes on has had at least n less the file's size in which no byte was taken |
| PhasedUpload.TakingServersEndTheLoop | sau/platforms/facebook/publisher.py:166-179 | against a server that takes a byte in every round the loop has ended after one round more than the file has bytes |
| PhasedUpload.TakingServersGetTheFile | sau/platforms/facebook/publisher.py:166-184 | and the file is there after as many rounds as it has bytes, if nothing raised and the last window did not close short of its end |
| PhasedUpload.IdleRoundStaysPut | sau/platforms/facebook/publisher.py:166-179 | a successful round in which no byte is taken leaves the server where it was |
| PhasedUpload.IdleServerNeverLetsGo | sau/platforms/facebook/publisher.py:166-179 | so a server that takes nothing and asks for the same window again keeps the loop going for any number of rounds |
| PhasedUpload.WindowPastTheFileIsCut | sau/platforms/facebook/publisher.py:167 | a window past the file is read as one that ends with it |
| PhasedUpload.WindowAfterTheLastByteRaises | sau/platforms/facebook/publisher.py:167 | unless the server holds the whole file: then the read fails and the publish raises |
| PhasedUpload.ReportsNeverFall | sau/platforms/facebook/publisher.py:178-179 | the reported offsets never fall, end at what the server holds, and rise strictly without idle rounds |
| Retries.WithRetries | sau/http.py:40-75 | the result is the last call's; every call before it failed retryably, and it did too only when no attempts were left; no attempts is a ValueError |
| Retries.CallsCharacterised | sau/http.py:55-75 | that fixes the number of calls |
| Retries.SucceedsWithinFiveCalls | sau/http.py:40-75 | with the default number of attempts: success exactly when one of the first five calls succeeds and those before it failed retryably |
| TokenRefresh.RunKeeps | sau/tokens.py:66-95 | in every run one caller at most is inside the lock, and the provider's token is on the row, in that caller's hands, or lost |
| TokenRefresh.OneAtATime | sau/tokens.py:72-75 | two callers are never inside the lock together |
| TokenRefresh.StoredTokenIsCurrentIffNoneLost | sau/tokens.py:89-95 | whenever the lock is free the stored refresh token is the provider's current one, if and only if no rotation was lost |
| TokenRefresh.PresentedTokenIsUnusedIffNoneLost | sau/tokens.py:83-90 | a token presented is one the provider has not used up, if and only if no rotation was lost; after a loss every refresh fails |
| TokenRefresh.FailedCommitLosesTheRotation | sau/tokens.py:89-95 | for one, a first refresh whose commit fails: the lock is free and the row's token is used up |
| TokenRefresh.ReturnedTokensLast | sau/tokens.py:83-95 | a token handed to a caller that can refresh is newly granted, or has 600 seconds left, or does not expire |
| TokenRefresh.RefreshesAreSpaced | sau/tokens.py:25-95 | however many callers there are, a refresh follows the one before by more than its lifetime less 600 seconds |
| TokenRefresh.RefreshesTakeTime | sau/tokens.py:25 | so n refreshes of tokens living at least L take (n - 1)(L - 600) seconds or more |
| Tokens.TokenStore.GetAccessToken | sau/tokens.py:66-95 | one caller's result, its three errors and the new row, in every branch; a token with less than 600 seconds left is refreshed |
| Tokens.UndisturbedRefresh | sau/tokens.py:72-95 | the steps of an uninterrupted refresh do to the row what the method does |
| Tokens.UndisturbedCheck | sau/tokens.py:72-87 | a caller that need not refresh returns the stored token, one that cannot fails, and the row stays as it is |
| CaptionText.Tidy | sau/captions/template.py:90-104 | the two loops compute the specified text |
| CaptionText.SplitsAtTheFirstBreak | sau/captions/template.py:98 | what stands before a text's first break is its first line and what follows is split by itself; CR LF is one break |
| CaptionText.SplitsNowhere | sau/captions/template.py:98 | and a text without a break is one line, or none |
| CaptionText.StripIs | sau/captions/template.py:104 | stripping takes blanks off both ends, all that are there, and nothing else |
| CaptionText.BreaksAndBlanks | sau/captions/template.py:98-104 | the ten characters that end a line and the further nineteen that are blank |
| CaptionText.CollapseDrops | sau/captions/template.py:99-103 | a line is dropped exactly if it is blank and comes first or after a blank one |
| CaptionText.NormalIffTidied | sau/captions/template.py:90-104 | tidying leaves a text alone if and only if it is a normal form: newlines only, no blank before one, no two blank lines, nothing blank at either end |
| CaptionText.TidiedIsNormal | sau/captions/template.py:90-104 | tidied text is a normal form |
| CaptionText.TidyIsIdempotent | sau/captions/template.py:90-104 | tidying twice is tidying once |
| CaptionText.TidyKeepsVisible | sau/captions/template.py:90-104 | tidying takes away blanks and line breaks and nothing else |
| CaptionText.FitIsWithinLimit | sau/captions/template.py:107-123 | cut text is within a positive limit, and is changed only if it was too long |
| CaptionText.FitIsIdempotent | sau/captions/template.py:107-123 | cutting twice is cutting once |
| CaptionText.FitKeepsABeginning | sau/captions/template.py:118-123 | what is kept is a beginning of the text and an ellipsis; between it and the cut lie only blanks |
| CaptionText.CutsAtTheLastSpaceOfTheLastFifth | sau/captions/template.py:118-122 | the cut is made at a space if and only if one lies in the last fifth of the budget, and then at the last one |
| CaptionText.FitAfterTidyIsTidied | sau/captions/template.py:163 | cutting after tidying leaves nothing to tidy |
| CaptionTemplate.ParseIsTheLeftmostDivision | sau/captions/template.py:82-87 | a template has one left-to-right division into placeholders and plain text, and the substitution uses it |
| CaptionTemplate.UnknownFieldsStay | sau/captions/template.py:22-25 | where no name is known the template comes out verbatim |
| CaptionTemplate.PlaceholdersExpandIndependently | sau/captions/template.py:82-87 | a placeholder gives its value, or itself; the value is never looked at again, and what stands before and after is expanded by itself |
| CaptionTemplate.Render | sau/captions/template.py:126-170 | filling the dictionary and rendering: captions of at most 2200, 2200 and 5000 characters and titles of at most 150, 0 and 255, unchanged when they fit |
| CaptionTemplate.ContextNames | sau/captions/template.py:126-149 | the nine names, and what each stands for |
| CaptionTemplate.DecimalReadsBack | sau/captions/template.py:140-142 | the numbers written into a caption read back as themselves |
| CaptionTemplate.RenderingFitsAndIsNormal | sau/captions/template.py:152-170 | every caption and title fits its platform and is a normal form that neither tidying nor cutting changes |
| CaptionTemplate.LastPartIgnoresTheTeaser | sau/captions/template.py:135-149 | the last part renders the same whatever the teaser's template |

## Left out

- HTTP clients, Graph and TikTok envelopes, boto3, Redis, SQLAlchemy and Postgres, beyond atomic transactions, a byte store, a work queue and a row lock.
- ffmpeg, ffprobe and the checks on codecs and dimensions: a worker's output is opaque but for its size; whether it is accepted is a step.
- Profile hashing: a profile identity is a given string; `ensure_rendition`, which the job worker still calls, only registers the source.
- Daylight saving: with an offset that changes, two firings of a slot need not be a day apart.
- Two API requests racing on the same SCHEDULED rows: the code takes no lock there, and the model runs requests one after another.
- Deleting assets, series and parts, and editing the backlog while a plan is being followed.
- The texts of a preparation's errors, beyond their codes and what is recorded on the row.
- The adapters' choice between hosted and pushed uploads, TikTok's privacy clamp, permalinks and status maps: short functions of one body each.
- Seeding credentials: a new seed after a lost rotation starts a new run of the token model.
- Rounding of `math.ceil(size / 1000)` in a chunk plan: the model divides exactly, which the original's floats also do for every size a plan accepts.
- TRANSCODING, a job state that no code assigns; captions and privacy settings carried along with a job.
- One tick releases several assets in one transaction; in JobSystem it is as many releases, one after the other.
- Jitter and sleeps between retries, logging, settings, the console, caption providers and file name parsing.
- PhasedUpload.ChunkedPublish: runs as many rounds as it is given replies for, because against some servers the original loop has no end.
- A phased upload server whose next start is not the number of bytes it holds.
- Uploads.IterChunks: does not cover a chunk size of zero, which the settings rule out.
- ScheduleRuns.PlanPredictsRun: does not cover ticks farther apart than the grace window, or slots closer to local midnight than one gap between ticks, where a firing can be missed.
- CaptionTemplate.Render: leaves open which characters besides the braces the regular expression's word class contains.
- RenditionResults.RowsCanBeReclaimed: does not say that the store or the encoder then succeed.
