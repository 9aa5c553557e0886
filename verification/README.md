# Solace, modelled and proved

Solace is a mail and calendar suite. This project models the parts of it that are hardest to get right by reading,
and proves what they promise for every input, every interleaving and every reachable state.

**The notification outbox.** The notifications worker turns due reminders into jobs, and overlapping five-second
ticks lease those jobs, send them by mail or APNs, and record the outcome. `Outbox` is a transition system over the
reminder table, the job table, a clock and a set of live ticks. Every SQL statement or transaction is one atomic step.
Crashes, timeouts and writes that report an error are steps too, so a run is any interleaving of any number of ticks
and worker processes. On top of it stand:

- `Lease`: no job is ever in the hands of two ticks, and retention never takes a held job.
- `Obligation`: the reminder email is covered by exactly one row at all times, as it moves from a push to an email job.
- `Attempts` and `Spacing`: at most seven dispatches per job and fourteen per reminder; the backoff spaces the claims.
- `Starvation` and `Quiescence`: no due job is passed over for long, and the outbox runs dry.
- `Staging` and `RowLocks`: claimers that lock rows, skip locked rows, stage their writes, commit and roll back refine
  the outbox's atomic scheduling.
- `Delivery` and `Outcomes`: what is marked sent was delivered; settled jobs stay settled; a failed job comes back after
  exactly its backoff, a lost one after exactly its lease, and one that always fails is tried exactly seven times.
- `Screening`: every queued row says whose reminder it is, and the claimer accepts it exactly for short event ids.
- `Settling`: a push job together with the device table; devices that are gone do not keep it pending.
- `Worker`: the worker's loops as methods on a database object, with interference between any two statements. Every
  method extends one legal run of the outbox, so all of the above holds of them.
- `Payload`, `Schedule`, `Backoff`, `Retention`, `Push`, `CollapseId`: the files the protocol relies on.

**Four smaller cores.** `Template` and `Escape`: the reminder mail's scanner against the meaning of the template it
scans. `Lockfile` and `Closure`: the worklist that collects shipped dependencies against reachability, and `Needing`:
reachability against what the lockfile's entries say. `Comments`: the comment scanner against a one-character-at-a-time
machine, the machine against the tokens of the text, and the binary-search line index. `ReadState` and `MailClient`: the
mail client's automatic mark-as-read racing the user's mark-as-unread.

## What the proofs turned up

Each of these is a property one would expect that the code does not have. The model follows the code; a lemma shows
the failing case, and another says exactly when the property does hold.

Two can happen to a user as things are:

- Marking a message unread loses to an earlier manual mark-as-read that is still on its way, and to nothing else
  (`UnreadWinsExactlyWhenNoReadIsPending`).
- Moving to another message before an automatic read is answered takes the read back on the server while the list
  goes on showing the message as read (`MovingOnTakesTheReadBack`; `StayingDecidesExactlyWhenCalm` says when staying or
  moving on decides).

One depends on the lockfile:

- A package that is not installed, and that one package requires while for another it is optional, is reported or not
  depending on the order of the lockfile's lists (`ReportDependsOnTheOrder`; `ReportIsExactUnlessNeededBothWays`).

Three are latent, because today's callers never pass the input in question:

- A reminder whose event id is longer than 128 bytes and whose email was deferred to a push loses the email: the
  claimer drops the push as invalid without queuing the fallback (`LongEventIdLosesTheEmail`;
  `EmailObligationConserved` gives the exact condition). Event ids are generated and short.
- A push environment that looks like `sandbox` but is spelled differently makes both APNs requests go to production
  (`MisspeltSandboxIsStuck`; `RetryReachesTheOtherHost` gives the exact condition). Registration admits two spellings.
- A template tag that is never closed makes the text before it appear twice (`UnclosedTagRepeatsItsText`). The template
  is a constant in which every tag is closed.

## Assumptions

- One clock serves the database and the worker, and it never goes back.
- A transaction or statement that reports an error did not commit.
- A tick that was cut off, or whose process died, performs no later write.
- Row ids are never reused. Jobs are inserted with `available_at` at the time their transaction started.
- A request to APNs, the mail server or the JMAP server gets an arbitrary answer.
- In `ReadState`, requests are answered eventually and successfully; the message is in the list; React runs the
  cleanup of an effect before the next effect and state updates take effect at once.

Where the worker's own README and the code differ, the model follows the code: payloads also carry `dueAt`.

## Model

| member | source | states |
|---|---|---|
| `Lease.LeaseStep` | apps/notifications/src/worker.rs:138-201 | Every step of the outbox keeps the lease invariant: ticks hold disjoint jobs, as copies equal to the rows, under leases that outlive the tick |
| `Lease.LeaseSafety` | apps/notifications/src/jobs.rs:63-81 | In every reachable state a job is in the hands of at most one live tick, which works from an up-to-date copy of a pending row whose lease has at least 75 seconds left |
| `Lease.HeldIsNotDue` | apps/notifications/src/jobs.rs:63-81 | A job that a live tick holds is not due, so no claim can return it |
| `Lease.MarkFailedKeepsLease` | apps/notifications/src/jobs.rs:124-152 | The failure write that shortens a lease does not break exclusion, because the tick is done with the job |
| `Lease.RetireSparesHeldJobs` | apps/notifications/src/retention.rs:29-75 | Retention never deletes a job that a live tick holds |
| `Obligation.ObligationStep` | apps/notifications/src/schedule.rs:129-143 | Every step keeps each scheduled reminder's record of jobs exact and its email settled |
| `Obligation.EmailObligationConserved` | apps/notifications/src/schedule.rs:129-143 | In every reachable state a scheduled reminder with email enabled is covered by exactly one of one email job or one flagged push that is pending or sent, if and only if it is not a deferred one with an over-long event id whose push was dropped |
| `Obligation.SkipMovesTheObligation` | apps/notifications/src/worker.rs:214-232 | Skipping a flagged push replaces it by exactly one email job in the same step, where there was none before |
| `Obligation.StandInIsThePush` | apps/notifications/src/schedule.rs:186-198 | A job that stands in for an email is the one push of its reminder, which has no email job yet: the fallback is never queued twice |
| `Obligation.StandInPayload` | apps/notifications/src/schedule.rs:151-165 | The claimer reads a scheduled push as standing in for the email exactly when the email was deferred to it and the event id is short enough |
| `Obligation.LongEventIdLosesTheEmail` | apps/notifications/src/jobs.rs:92-112 | For every event id that is too long there is a run after which no row stands for the deferred email |
| `Screening.OwnJobsPassTheScreen` | apps/notifications/src/jobs.rs:92-112 | In every reachable state each job that a reminder caused, email or push, scheduled or queued by a skip, belongs to the reminder's user and is accepted exactly when the trimmed event id takes at most 128 bytes; it then reads back as that event and those minutes, a push also with the due time and whether it stands in |
| `Screening.FallbackCarries` | apps/notifications/src/schedule.rs:186-198 | The email a skipped push leaves says the same event and minutes, is accepted, and stands in for nothing |
| `Screening.FallbackRepeatsThePush` | apps/notifications/src/worker.rs:214-232 | A skip queues an email exactly for a push flagged as standing in, whoever queued the push: for the same user, about the payload's event id before the row's, with minutes that do not fit read as none |
| `Settling.ReminderPushIsItsUsers` | apps/notifications/src/worker.rs:272-275 | A reminder's push is dispatched to the reminder's user, as a reminder, and as a test only for the two test ids |
| `Staging.CommitSchedulesAll` | apps/notifications/src/schedule.rs:80-126 | Making the rows visible that the loop staged one by one equals scheduling the selected reminders in sequence, whatever else the tables have become meanwhile |
| `Staging.StagedTables` | apps/notifications/src/schedule.rs:103-123 | Inserting one job per channel in order is what scheduling one reminder does to the tables |
| `Staging.CutoffIsTheMinute` | apps/notifications/src/schedule.rs:69-79 | Reminders become due by the full minute, never later than now |
| `Staging.SelectionIsExact` | apps/notifications/src/schedule.rs:22-49 | A reminder is selected only if enabled, unsent, unlocked and due by the minute, and one that is so and is not selected has fifty earlier ones before it |
| `RowLocks.CommitIsClaimDue` | apps/notifications/src/schedule.rs:69-127 | A commit applies the staged rows, and that is the outbox's atomic step |
| `RowLocks.ClaimersRefineTheOutbox` | apps/notifications/src/schedule.rs:69-127 | Every interleaving of claimers that lock, skip locked rows, stage writes, commit them or roll back is a legal run of the outbox with the same tables |
| `RowLocks.MoveKeepsLocks` | apps/notifications/src/schedule.rs:22-49 | Open transactions keep disjoint sets of due rows locked, and nobody else changes those rows |
| `RowLocks.ScheduledExactlyOnce` | apps/notifications/src/schedule.rs:69-127 | Over any run a reminder is committed by exactly one transaction if it becomes scheduled, and never again once it was |
| `RowLocks.CommitQueuesEachChannelOnce` | apps/notifications/src/schedule.rs:80-126 | A commit marks each of its reminders sent, none that is disabled, sent or before its minute, records it with its own id and minutes and its owner's settings, and leaves exactly one email unless a push stands in for it, and one push if there is a device |
| `Attempts.AttemptBound` | apps/notifications/src/jobs.rs:73-77 | In every run, crashes, timeouts and failed writes included, a job reaches a channel dispatcher at most seven times |
| `Attempts.ReminderDispatchBound` | apps/notifications/src/worker.rs:203-212 | In every run one reminder causes at most fourteen dispatches |
| `Attempts.DispatchesAreRecorded` | apps/notifications/src/worker.rs:203-212 | The per-job dispatch record equals the number of dispatch steps of the run |
| `Attempts.TwoJobsShareTheDispatches` | apps/notifications/src/schedule.rs:134-143 | All dispatches a reminder causes are dispatches of its one email job or its one push job |
| `Delivery.SentWasDelivered` | apps/notifications/src/worker.rs:169-177 | In every run a job is marked sent only if some step handed it to its channel and the channel took it |
| `Delivery.FailingJobIsTriedSevenTimes` | apps/notifications/src/worker.rs:203-212 | A job whose channel always fails, its writes working, is claimed at most eight times; its channel is asked at each of the first seven claims, it is pending again after each, and the eighth skips it |
| `Outcomes.QueuedJobsAreDue` | apps/notifications/src/schedule.rs:51-55 | Whoever queues a job, it is pending, untried and due at once |
| `Outcomes.SettledForGood` | apps/notifications/src/jobs.rs:63-81 | Once sent or skipped, a row stays as it is for the rest of every run, also past its removal, and its channel is not asked again |
| `Outcomes.RecordedDeliveryIsFinal` | apps/notifications/src/jobs.rs:116-122 | After a recorded delivery the row says sent for the rest of every run and nothing is sent twice |
| `Outcomes.SkipIsFinal` | apps/notifications/src/worker.rs:214-232 | After a skip the row says skipped for the rest of every run and the channel is not asked again |
| `Outcomes.RefusalIsFinal` | apps/notifications/src/jobs.rs:92-112 | So it does after a refused payload |
| `Outcomes.FailedJobReturns` | apps/notifications/src/jobs.rs:124-152 | After a recorded failure the job is due again from exactly the backoff of its attempts later and not before, until somebody writes its row |
| `Outcomes.LostClaimReturns` | apps/notifications/src/jobs.rs:63-81 | A claimed job that nobody writes any more is due again after exactly two minutes and not before, one attempt up |
| `Outcomes.RetentionTakesOldRows` | apps/notifications/src/retention.rs:29-75 | Retention removes exactly what it selects, only rows settled for a week, or a month if skipped |
| `Spacing.BackoffSpacesTheClaims` | apps/notifications/src/jobs.rs:135-147 | When every attempt so far ended in a recorded failure, the next claim comes no earlier than the sum of the backoffs after the first; the eighth at least 1845 seconds after |
| `Starvation.ClaimShortensTheQueue` | apps/notifications/src/jobs.rs:63-81 | A claim that passes over a due job moves fifty jobs from before it to behind it |
| `Starvation.PassedOver` | apps/notifications/src/jobs.rs:63-81 | While a due job is passed over, fifty times the number of claims is at most the jobs ahead of it plus those inserted dated no later than it |
| `Starvation.NoStarvation` | apps/notifications/src/worker.rs:26 | A due job with r others at or before it, later insertions of that date counted, is claimed within r/50 + 1 claims |
| `Quiescence.PotentialStep` | apps/notifications/src/worker.rs:203-232 | With no new reminders and successful writes every step lowers the potential by at least the number of jobs it claims |
| `Quiescence.ClaimsUsePotential` | apps/notifications/src/jobs.rs:63-81 | A smooth run's job claims and the potential at its end together never exceed the potential at its start |
| `Quiescence.ClaimsAreBounded` | apps/notifications/src/worker.rs:203-232 | From every reachable state the job claims of a smooth run, and so the claim statements that find a job, number at most the potential |
| `Quiescence.OutboxRunsDry` | apps/notifications/src/worker.rs:148-201 | Whatever the channels answer, a smooth run with more claims than the potential, each made when all that is pending is due, ends with every job sent or skipped |
| `Quiescence.DryIsWithinReach` | apps/notifications/src/main.rs:138-156 | From every reachable state a smooth run leads to one without live ticks and with every job sent or skipped |
| `Quiescence.SkippedHeadFalls` | apps/notifications/src/schedule.rs:186-198 | A queued fallback email adds no more claims than the skipped push carried for it |
| `Worker.Database.Interfere` | apps/notifications/src/main.rs:138-156 | Between two statements of a tick anything else may happen, its own end included; its own bookkeeping is untouched otherwise |
| `Worker.Database.MarkSent` | apps/notifications/src/jobs.rs:116-122 | The write is the mark-sent step of a job its channel took, or leaves the row alone when it fails |
| `Worker.Database.MarkFailed` | apps/notifications/src/jobs.rs:124-152 | The write is the mark-failed step of a job its channel did not take: pending again, after what `Outcomes.FailedJobReturns` says |
| `Worker.Database.Skip` | apps/notifications/src/worker.rs:214-232 | One transaction, logged as one skip step: the job skipped and the email it stood in for queued as `Screening.FallbackRepeatsThePush` says; on an error neither happens |
| `Worker.Database.SkipInvalid` | apps/notifications/src/jobs.rs:92-112 | A claimed row whose payload is refused is marked skipped without a fallback |
| `Worker.SelectDue` | apps/notifications/src/schedule.rs:22-49 | The earliest due reminders that nobody else has locked, at most fifty, each once, with new job ids |
| `Worker.Database.ClaimDue` | apps/notifications/src/schedule.rs:69-127 | Selection, loop and commit are one step that schedules exactly the selected reminders, or nothing |
| `Worker.Database.ClaimStatement` | apps/notifications/src/jobs.rs:63-81 | The log grows by exactly one claim step, of the jobs returned, which are a valid claim |
| `Worker.OldestDue` | apps/notifications/src/jobs.rs:63-81 | At most fifty distinct due pending jobs, and any it leaves out is no older than all it takes, of which there are then fifty |
| `Worker.LeaseAll` | apps/notifications/src/jobs.rs:70-80 | Exactly the picked rows are leased, and each is returned as it is after the update |
| `Worker.StageAll` | apps/notifications/src/schedule.rs:80-124 | The loop's row writes equal scheduling the reminders one after another |
| `Worker.ClaimPending` | apps/notifications/src/jobs.rs:85-114 | The tick goes on with exactly the claimed rows whose payload is valid, in order; a failing write ends it |
| `Worker.SkipJob` | apps/notifications/src/worker.rs:214-232 | A skip that commits takes the job off the tick's list and is recorded; one that fails changes nothing and counts as a failure |
| `Worker.Dispatch` | apps/notifications/src/worker.rs:203-212 | Sent exactly if the job was below eight attempts, on a known channel, and the channel took it; failed exactly if the channel erred or a due skip could not be written; skipped otherwise |
| `Worker.RecordOutcome` | apps/notifications/src/worker.rs:169-197 | A sent or failed job is recorded as such, and the tick is done with it whether or not the write works |
| `Worker.Database.RecordsAreLogged` | apps/notifications/src/worker.rs:169-197 | What a tick is said to have recorded is what the run's steps say, in order |
| `Worker.ProcessAll` | apps/notifications/src/worker.rs:168-198 | Every claimed job comes to what `Dispatch` says its answer and writes come to, the tick's records are those outcomes in order, and the counters match |
| `Worker.Process` | apps/notifications/src/worker.rs:148-201 | A whole tick: it schedules exactly the due reminders of that moment, or fails to and goes on; it claims, keeps the valid rows and records every outcome in order, unless it is cut off; the database stays on a run of the outbox throughout |
| `Backoff.ComputeRetryDelay` | apps/notifications/src/jobs.rs:51-61 | The doubling loop returns min(15 · 2^(max(attempts, 1) − 1), 900) for every attempt count |
| `Backoff.RetryDelayMonotone` | apps/notifications/src/jobs.rs:51-61 | The delay grows with the attempts and stays between 15 and 900 seconds |
| `Backoff.DelayTable` | apps/notifications/src/jobs.rs:51-61 | 15, 30, 60, 120, 240 and 480 seconds, then 900 for every later attempt |
| `Backoff.SevenFailuresTakeHalfAnHour` | apps/notifications/src/jobs.rs:12-15 | The first seven delays add up to 1845 seconds |
| `Schedule.ChannelsFor` | apps/notifications/src/schedule.rs:129-143 | Which channels a due reminder gets: email or its deferral to the push, never both, nothing twice |
| `Payload.ReminderRoundTrip` | apps/notifications/src/payload.rs:31-84 | Reading a written reminder payload returns the kind, trimmed id, minutes, due time and flag if the trimmed id has at most 128 bytes, and is refused otherwise |
| `Payload.AcceptedExactlyWhen` | apps/notifications/src/payload.rs:31-84 | A payload is accepted if and only if it is `null` or an object of the eight known keys with the right types, 64-bit numbers, ids of at most 128 bytes and no ids of the other kind; each field then reads as what its key holds |
| `Text.TrimIsExact` | apps/notifications/src/payload.rs:69-76 | Trimming takes all whitespace off both ends and nothing else |
| `Retention.Database.DeleteBatch` | apps/notifications/src/retention.rs:18-27 | One batch removes min(matching, limit) matching rows and nothing else; any batch may fail, and then removes nothing |
| `Retention.Database.RunRule` | apps/notifications/src/retention.rs:87-110 | With j batches before the first failing one, exactly min(matching, size · j) matching rows go; the failure is reported exactly when the rows suffice to reach it |
| `Retention.CapOfARule` | apps/notifications/src/retention.rs:87-110 | With the repository's sizes: min(matching, 500 j) rows and an error iff 500 j rows matched when batch j fails, min(matching, 100000) and none otherwise |
| `Retention.RunRules` | apps/notifications/src/retention.rs:78-113 | Separate rules each delete as many rows, and fail exactly when, as if run first, whichever batches fail; the errors are the failed rules in order and only selected rows go |
| `Retention.RulesAreSeparate` | apps/notifications/src/retention.rs:29-75 | The repository's rules never select the same row twice, at any time |
| `Retention.RulesSelectExactly` | apps/notifications/src/retention.rs:29-75 | Which rows of which table, by which column and how many days old, the nine rules select |
| `Retention.JobRulesSelectExpiredJobs` | apps/notifications/src/retention.rs:29-75 | The job rules select exactly the sent jobs past seven days and the skipped ones past thirty, never a pending one |
| `Push.RetryReachesTheOtherHost` | apps/notifications/src/apns.rs:187-193 | The alternative environment names the other host exactly when the environment is spelled `sandbox` or does not look like it |
| `Push.MisspeltSandboxIsStuck` | apps/notifications/src/apns.rs:253-304 | From any stored environment that looks like `sandbox` without being it, both requests go to the production host |
| `Push.LooksSandboxExactlyWhen` | apps/notifications/src/apns.rs:187-193 | The lenient spelling is `sandbox` in any capitals with any whitespace around it |
| `Push.ValidTokenGetsThrough` | apps/notifications/src/apns.rs:288-304 | A token valid at one host is accepted from either stored environment, in one request if it was the right one and two otherwise |
| `Push.LearningStep` | apps/notifications/src/worker.rs:364-369 | Whatever else the hosts answer, an accepted and recorded send stores the environment the token lives in, and no event replaces it |
| `Push.EnvironmentIsLearnedForGood` | apps/backend/src/push_devices.rs:241-279 | After the first accepted and recorded send, every later interleaving of sends, failing ones included, and the same user's registrations keeps the environment, and each later send needs one request |
| `Push.DeviceTable.Register` | apps/backend/src/push_devices.rs:142-159 | The token belongs to the caller; the environment learned is kept for the same user and replaced for another, as the learning model says |
| `Push.DeviceTable.SendToDevice` | apps/notifications/src/worker.rs:337-372 | Also when its row has changed or gone since it was read, only that device's row is touched: deleted if reported gone, its environment corrected if another worked, as the learning model says |
| `Push.DeviceTable.SendToAll` | apps/notifications/src/worker.rs:311-321 | With other sessions changing the table before every send, the count is that of the devices read which took the push; if others only remove, no more devices stay than without them |
| `Push.DeviceTable.DispatchPush` | apps/notifications/src/worker.rs:261-335 | The answer depends on the devices read alone; the table afterwards is that of sending to every target independently if nobody interferes, and no larger if others only remove |
| `Push.DeliveredExactlyWhen` | apps/notifications/src/worker.rs:261-335 | Delivered if and only if the reads work, the kind is known, the user has a switched-on device for it and every such device took it |
| `Push.GivenUpExactlyWhen` | apps/notifications/src/worker.rs:261-335 | Given up if and only if push is not configured, the user has no device by the third attempt, none for the kind, or the kind is unknown |
| `Push.OthersDoNotMatter` | apps/notifications/src/jobs.rs:194-200 | Other users' devices, devices switched off and what their hosts say do not change the answer |
| `Push.OthersAreLeftAlone` | apps/notifications/src/worker.rs:261-335 | A dispatch leaves every row alone that is another user's, switched off or of the other app |
| `Push.TargetsAreCorrected` | apps/notifications/src/worker.rs:337-372 | Of the devices it sends to, it removes exactly those reported gone and changes nothing but the environment of one that took the push |
| `Push.TryNarrows` | apps/notifications/src/worker.rs:261-335 | If every target takes the push or is gone, a failed try leaves no gone target, a second leaves no device, and a third cannot happen |
| `Settling.GoneDevicesSettleThePush` | apps/notifications/src/worker.rs:261-335 | In every interleaving with the rest of the worker, crashes and failed writes included, a push job whose devices are never added to is claimed at most three times beyond the claims lost to a dead tick, a failed write or a device that neither took the push nor was gone; once the third is worked off it is sent or skipped, and a skipped one that stood in for an email has that email queued, once |
| `Settling.SettleRun` | apps/notifications/src/worker.rs:261-335 | Every step of the worker and every change of the table keeps the devices narrowed by the failed tries so far |
| `CollapseId.Build` | apps/notifications/src/apns.rs:104-115 | The back-off loop returns the longest whole-character prefix that fits in 64 bytes, and wastes at most three |
| `CollapseId.BoundariesAreCharacterEnds` | apps/notifications/src/apns.rs:104-115 | Where UTF-8 may be cut is where a whole character ends |
| `CollapseId.BoundaryWithinThree` | apps/notifications/src/apns.rs:104-115 | At most three bytes back there is a boundary, so the loop stops there |
| `Template.Html` | apps/notifications/src/reminder.rs:105-125 | The loop terminates on every template and produces its scan |
| `Template.ScanPieces` | apps/notifications/src/reminder.rs:104-125 | The scan of printed pieces is their rendering followed by the scan of whatever comes behind them |
| `Template.ScanPrinted` | apps/notifications/src/reminder.rs:104-125 | Scanning the printed form of any well-formed tree of text, fields and blocks gives that tree's rendering with fields escaped, for all field values |
| `Template.ReminderHtml` | apps/notifications/src/reminder.rs:86-125 | The mail for a printed template is the rendering of its tree with the reminder's values |
| `Template.EachNameShowsItsValue` | apps/notifications/src/reminder.rs:86-102 | Each of the eleven names shows its own value, escaped, and any other name nothing |
| `Template.TagsAsWritten` | apps/notifications/src/reminder.rs:104-125 | `{{.X}}` shows X escaped, `{{if .X}}…{{end}}` its text exactly when X is not empty, and text shows as it is |
| `Template.SkipLeaves` | apps/notifications/src/reminder.rs:115-118 | Skipping a block whose field is empty lands right behind its own `{{end}}` |
| `Template.UnclosedTagRepeatsItsText` | apps/notifications/src/reminder.rs:108-112 | Behind any well-formed template, a tag never closed repeats the text since the last tag; the remainder comes out as written exactly when there is no such text |
| `Escape.ChainIsPerCharacter` | apps/backend/src/email.rs:30-37 | The five replacements, each over the whole result of the one before, equal one map per character |
| `Escape.UnescapeUndoesEscape` | apps/backend/src/email.rs:30-37 | Reading the entities back gives the value |
| `Escape.EscapeIsInjectiveAndInert` | apps/backend/src/email.rs:30-37 | Different values stay different, and no markup character survives |
| `Lockfile.KeySegmentsUndoJoin` | scripts/third-party-notices.ts:103-106 | Splitting a key undoes joining scoped and unscoped package names |
| `Lockfile.ResolveName` | scripts/third-party-notices.ts:135-141 | The loop computes the resolution |
| `Lockfile.ResolvesToTheNearestCopy` | scripts/third-party-notices.ts:135-141 | A name resolves to the innermost enclosing copy, to nothing only if no level has one, and the key splits back into that level's path |
| `Lockfile.Edges` | scripts/third-party-notices.ts:143-148 | The edges are exactly the dependencies and peers that are not optional peers, and the optional dependencies, so marked |
| `Closure.DrainStack` | scripts/third-party-notices.ts:158-188 | The stack loop terminates and computes the search from any start |
| `Closure.CollectNotices` | scripts/third-party-notices.ts:150-189 | Visited keys are exactly the reachable ones, ids exactly those of reachable installed packages and each once, reported ones missing and required; it fails exactly when a shipped workspace is not in the lockfile |
| `Needing.CollectsWhatIsNeeded` | scripts/third-party-notices.ts:150-189 | Said from the lockfile entries alone: visited is exactly what shipped workspaces need, ids exactly those of what is kept of it; what is reported is missing and required by somebody, and what is missing and not reported is optional for somebody |
| `Needing.ReachableIsNeeded` | scripts/third-party-notices.ts:150-189 | What the search can reach is what a chain of needs leads to |
| `Needing.ExpandsToItsNeeds` | scripts/third-party-notices.ts:164-180 | Visiting an entry adds edges to exactly what it needs: by its own lists, from its own place, or by those of the workspace it links to |
| `Needing.NestedPackageNeeds` | scripts/third-party-notices.ts:135-148 | A package nested at a path looks its names up from that whole path, innermost copy first |
| `Needing.KindIsWhatItSays` | scripts/third-party-notices.ts:164-179 | Kept means installed, no workspace link and not bound to a platform; missing the same but not installed; the link names the directory behind its mark |
| `Closure.DrainKeepsInv` | scripts/third-party-notices.ts:158-188 | Soundness, completeness, collected ids and reports hold after every turn of the loop |
| `Closure.OrderDoesNotMatter` | scripts/third-party-notices.ts:143-189 | Lists and workspaces in any other order give the same keys and ids |
| `Closure.ReportIsExactUnlessNeededBothWays` | scripts/third-party-notices.ts:173-179 | A missing package needed in one way only is reported exactly when that way is required |
| `Closure.ReportDependsOnTheOrder` | scripts/third-party-notices.ts:173-179 | Two orders of the same lockfile, of which one hides a missing required package |
| `Comments.ScanCStyleComments` | scripts/repo-rules/engine.ts:119-145 | For every text the scanner reports exactly what a character-by-character machine sees |
| `Comments.SkipString` | scripts/repo-rules/engine.ts:125-132 | Skipping a quoted or backtick string leaves the machine where reading it does |
| `Comments.TokenIsRead` | scripts/repo-rules/engine.ts:119-145 | Of a token, be it a character of code, a string up to its first end that no odd run of backslashes escapes, a backtick string up to the next backtick, or a comment, the scan reports it exactly if it is a comment, and goes on behind it |
| `Comments.TokenThere` | scripts/repo-rules/engine.ts:119-145 | At every position of every text there is such a token |
| `Comments.RangesAreDisjointComments` | scripts/repo-rules/engine.ts:119-145 | Ranges are in bounds, ascending, disjoint, and each is a whole comment that ends at its first chance |
| `Comments.LineStarts` | scripts/repo-rules/engine.ts:58-60 | The loop records where each line starts |
| `Comments.LineOf` | scripts/repo-rules/engine.ts:61-70 | The binary search returns one plus the newlines before the position, for every position |
| `Comments.LineCommentsStayOnOneLine` | scripts/repo-rules/engine.ts:83-92 | A reported line comment has the same first and last line |
| `ReadState.ReachableIsNumbered` | apps/web/hooks/use-mail-app.ts:223-230 | In every reachable state only an automatic read of the message still open carries the current nonce |
| `ReadState.ManualUnreadWins` | apps/web/hooks/use-mail-app.ts:2762-2795 | After the click, with no read of the user's own on its way, every undisturbed run keeps the message unread in the list, and unread on the server once its requests are answered |
| `ReadState.UnreadWinsExactlyWhenNoReadIsPending` | apps/web/hooks/use-mail-app.ts:2762-2823 | The click wins every race if and only if no manual read sent before it is still to be applied |
| `ReadState.AReadCanBePending` | apps/web/hooks/use-mail-app.ts:2797-2823 | Such a pending read is reachable for every message |
| `ReadState.MovingOnTakesTheReadBack` | apps/web/hooks/use-mail-app.ts:1145-1177 | With nothing else under way about the message, an automatic read stays on the server if and only if the user stays with the message until it is answered; the list shows it read either way |
| `ReadState.StayingDecidesExactlyWhenCalm` | apps/web/hooks/use-mail-app.ts:1145-1177 | Staying or moving on decides every run if and only if no other request about the message can still change anything as the timer fires |
| `ReadState.OpeningArmsTheTimer` | apps/web/hooks/use-mail-app.ts:1096-1112 | From every reachable state, opening an unread message starts a timer that will read it |
| `ReadState.OpenedMessageIsRead` | apps/web/hooks/use-mail-app.ts:1096-1178 | Opening it and waiting makes it read in the list and on the server |
| `MailClient.Hook.BumpAutoReadNonce` | apps/web/hooks/use-mail-app.ts:223-230 | Afterwards no automatic read of the message in flight or waiting carries the current nonce |
| `MailClient.Hook.SelectMessage` | apps/web/hooks/use-mail-app.ts:1096-1178 | Starts a timer that will read the message exactly if it is unread and allowed to; keeps the object on a legal run and a won unread won; turns the current automatic read of the message left into an abandoned one |
| `MailClient.Hook.TimerFires` | apps/web/hooks/use-mail-app.ts:1145-1172 | Sends a read and shows the message read exactly if nothing stops it, else changes nothing; never undoes a won unread; a read sent with nothing else under way is the current one |
| `MailClient.Hook.HandleMarkAsUnread` | apps/web/hooks/use-mail-app.ts:2762-2795 | Shows the message unread, sends an unread and abandons every automatic read of the open message; wins the race whenever no manual read is still to be applied, and keeps every other win |
| `MailClient.Hook.HandleMarkAsRead` | apps/web/hooks/use-mail-app.ts:2797-2823 | Does nothing for a read message; otherwise shows it read, sends a read and abandons every automatic read of the open message; every other message's win stands |
| `MailClient.Hook.RequestIsApplied` | apps/web/hooks/use-mail-app.ts:1157-1158 | The server has the message as the request says; in whatever order requests are applied, a won unread stays won |
| `MailClient.Hook.AnswerArrives` | apps/web/hooks/use-mail-app.ts:1158-1168 | An unread is sent exactly for an abandoned automatic read, so an answered current read is kept and an abandoned one is on its way back; a won unread stays won |
| `MailClient.Hook.WonIsUnread` | apps/web/hooks/use-mail-app.ts:2762-2795 | Once a won message's requests are answered it is unread on the server and in the list |

## Left out

- Postgres, sqlx, SeaORM, migrations, account deletion and its cascades: rows are maps and each statement or transaction is a step.
- Row locks of the claim statement and of retention: `CLAIM_PENDING` is one atomic step; locks are explicit only for scheduling, in `RowLocks`.
- The columns `claimed_at`, `last_error` and `sent_at`, the notification log, the error queue, health and status counters.
- HTTP to the mail server and APNs, signing and the provider-token cache, payload sizes: an arbitrary answer.
- The mail a job carries (`dispatch_email`), time zones, date formatting, the plain-text part, `layout` in `email.rs`.
- JSON syntax: a payload is a finite map from keys to typed values.
- The cleanup's own timeout and its guard against two cleanups in one process: retention may remove expired jobs at any time.
- Push.DeviceTable.DispatchPush: says nothing of the table when other sessions add devices during the dispatch; its answer does not depend on them.
- Push.EnvironmentIsLearnedForGood: covers a token that no host reports gone; one that is loses its row, and the next registration starts afresh.
- Starvation.NoStarvation: counts jobs inserted during the run that are dated no later than the waiting one, because a transaction dates its inserts when it starts.
- Quiescence.OutboxRunsDry: counts claims; it does not say how long the worker takes to make them.
- Closure.ReportIsExactUnlessNeededBothWays: for a package needed in both ways either answer occurs, so there is no converse.
- Comments.ScanCStyleComments: positions count characters; the source counts UTF-16 code units, which differ outside the basic plane.
- Closure.CollectNotices: lockfile keys are plain map keys; names inherited by every JavaScript object, such as `constructor`, are not looked up. License texts, versions and the extra packages are left out.
- ReadState.ManualUnreadWins: bulk actions, realtime sync, requests that fail, and conversations are not modelled.
- TypeScript-AST comments and rules, the rest of the mail hook, configuration, command lines and deployment scripts.
