# Gatekeeper, modelled and proved in Dafny

Gatekeeper sits on one Telegram account and screens private messages from strangers. It asks an
arithmetic question, archives and mutes the dialog meanwhile, and restricts senders who fail. A
restriction can end in a deletion of the whole conversation on both sides, so the state behind it has
to be right in every interleaving of messages, timers, the dashboard, the command line, maintenance
and crashes.

This project models that state and the algorithms around it and proves what they promise. Run
`dafny verify dfyconfig.toml` with Dafny 4.11.

## How it is built

| file | what it holds |
|---|---|
| `base.dfy`, `tables.dfy` | keys, times, statuses; one datatype per table row; `Db`, the whole database as a value |
| `store_spec.dfy`, `store_lemmas.dfy` | every store method as a function from the old tables to the new |
| `store.dfy` | `Store`, the mutable object whose methods are the SQL transactions, each proved equal to its function |
| `protocol.dfy` | all tasks, commands, maintenance and crashes as interleaved steps over `Db` and the held sender locks |
| `protocol_invariant.dfy`, `protocol_steps.dfy` | the invariant of every reachable state, step by step |
| `protocol_safety.dfy`, `protocol_challenge.dfy`, `protocol_decisions.dfy` | whole-run theorems: deletions; challenges, queues, attempts; the owner's commands |
| `protocol_paths.dfy` | the programs' call orders as paths of the protocol; a run in which a deletion happens |
| `locks.dfy`, `lock_sections.dfy` | the lock protocol: mutual exclusion and freedom from deadlock; the weak lock pool; locks as the protocol's sections |
| `telegram.dfy`, `service_spec.dfy`, `service.dfy` | the message service over `Store`, with every Telegram call succeeding, refusing or raising |
| `service_runs.dfy`, `owner_runs.dfy`, `counterexamples.dfy` | messages, recovery and verdicts as runs of the protocol; failing properties at reachable databases |
| `owner.dfy` | the owner's verdicts and releases, and the deletion worker |
| `outbound.dfy`, `campaign.dfy` | sliding-window tables against the full history |
| `retention.dfy` | what a maintenance pass keeps, table by table |
| `spending.dfy` | the outbound quota over the letters sent, in runs of messages, timers, maintenance and erasures |
| `policy.dfy`, `rules.dfy` | the detector's signals, the score, the destructive gate, and all three together |
| `dialog.dfy` | archive and restore with lost, refused and half-done requests |
| `utf16.dfy` | code-point spans to UTF-16 entities and back; emphasis by search |
| `ordering.dfy`, `maintenance.dfy`, `listing.dfy` | sorted lists; erasure, maintenance, the bulk command; the dashboard's lists, counts and pages |
| `operator.dfy`, `session_cache.dfy`, `stall.dfy` | the cleanup queue, the entity cache, the update watchdog |

A store method is one atomic step, and so is a command-line command in `protocol.dfy`. Inside one
handler (`service.dfy`) a command may land between the read of the sender's row and the first write to
it, and between two awaited calls: `Race` in `telegram.dfy`. Clock readings, message contents, failures of
Telegram and the answers of patterns and parsers are parameters, so the theorems hold for all of them.
Sender keys are 64-digit lower-case hexadecimal digests; their text order is numeric order, so a number
stands for a key. SQL integers are unbounded here; times and counters stay far below 64 bits.

## What came out

- **Deletion is safe.** In every run, whenever a deletion job can be claimed, the sender has stood in the
  very same restriction at every step since the job was scheduled (`ProtocolSafety.DeletionIsSafe`). This
  holds although several transitions keep the revision, forgetting resets it, the command line takes no
  locks, and a crash may hit between any two statements.
- **No silent deletion.** A reply or a timeout schedules a deletion only if the warning was delivered
  (`Service.GatekeeperService.AnsweredTells`).
- **Suppression in terms of the message.** The destructive answer is given exactly for a link of the
  message itself on the owner's denylist, or a corroborated repeated campaign; the score threshold never
  decides (`Rules.SuppressedExactlyWhen`). The same holds from the message to the row it leaves, through
  duplicate detection, the link and campaign tables, detector, policy and enforcement
  (`Service.GatekeeperService.SuppressedForGoodExactlyWhen`).
- **The quota holds for what is sent.** Whatever order messages, timers and maintenance come in, no hour
  holds more prompts and notices than the configured caps (`Spending.EveryHourIsCapped`). Every handler
  claims at most one slot and sends at most one letter on it (`Service.GatekeeperService.HandleLocked`).
- **Only the right answer passes.** Through any number of replies a challenged sender gets through exactly
  with the digest of the challenge it was issued (`Service.GatekeeperService.PassesWithTheIssuedDigest`).
- **Closed is closed.** A challenge that ended is never open again, and its attempts are exactly the wrong
  answers counted in the run (`ProtocolChallenge.ClosedNeverReopens`, `AttemptsAreWrongAnswers`).

Properties that do not hold as one would state them, each with a reachable input and the exact condition:

- *An open challenge always has an attempt left between messages.* A crash or an exception after the last
  wrong answer was counted and before the sender was restricted leaves a challenge with none left
  (`ProtocolChallenge.CrashCanLeaveNoAttempt`). It holds exactly for challenges whose exhaustion was not
  cut short (`ProtocolChallenge.AttemptsAreWrongAnswers`).
- *Recovery ends challenged, cleared, or archiving after failed restores.* Unlike delivery, recovery does
  not catch an exception of the archive call or of the activating statement; then the row stays archiving
  and no restore is tried (`Counterexamples.RecoveryStaysArchiving`). It stays archiving exactly then
  (`ServiceSpec.RecoveryStaysArchivingExactlyWhen`). The adapter's own archive call never raises, so in the
  shipped program only the statement can.
- *The outcome `suppressed` means the suppressed status.* A late reply reports it even if the notice failed
  and the sender was quarantined (`Counterexamples.LateReplyIsQuarantined`). It does exactly unless the late
  reply is an ordinary sender's who could not be told or cannot be found again
  (`Service.GatekeeperService.SuppressedExactlyWhenTold`).
- *A delivery ends in one of three ways.* If the owner's command decides the sender while Telegram is
  awaited, the row stays as the command wrote it (`Counterexamples.DeliveryIsOvertaken`); the exact endings
  are `ServiceSpec.OwnerHasTheLastWord`.
- *The owner's decision stands.* A handler reads the row first and writes it later whatever it says by then,
  and the command line takes no lock. An `allow` that lands in between is overwritten by the begun challenge
  (`Counterexamples.AllowIsLostToAChallenge`) or by a suppression for good; without an outbound slot also
  one that lands while the archive is awaited (`Counterexamples.AllowIsOverwritten`). For one message and any
  landings `Service.GatekeeperService.AllowedExactlyWhen` says when the sender is allowed afterwards, and
  `RevocationStandsExactlyWhen` the same for a revocation. Over whole runs a command's row stands exactly until
  the next write that does not look at it (`ProtocolDecisions.DecisionStandsExactlyUntilWritten`), and the service
  can begin a challenge over an `allow`, or restrict its sender, exactly from a view read before it landed and
  held since (`ProtocolDecisions.AllowIsLostExactlyToAnOldView`). A spam verdict overwrites a command that landed while it
  was being carried out, exactly if it is not refused (`Owner.OwnerActions.Spam`).
- *Every restore gives the old settings back.* Without a snapshot it asks for the defaults, which is right
  exactly for a dialog that had them (`Dialog.RestoreWithoutSnapshot`).
- *No hour holds more letters than the caps.* Erasing a sender erases the record of what it was sent, so the
  next claim of the same hour may be granted (`Spending.ErasureFreesASlot`), exactly if the others' letters leave room
  (`Spending.ErasureFreesExactlyWhen`). The caps hold for all letters to
  senders who are not erased in the run (`Spending.EveryHourIsCapped`).
- *A page belongs to the total beside it.* The two read the clock separately, and evidence that expires in
  between can turn a filtered reason (`Listing.ClocksCanDisagree`); they agree exactly if none does
  (`Listing.SameSelectionAcrossClocks`).

## Model

| member | source | states |
|---|---|---|
| `StateStore.Store.constructor` | src/tg_pm_gatekeeper/store/base.py:31-60 | a new store holds empty tables in monitor mode |
| `StateStore.Store.SetState` | src/tg_pm_gatekeeper/store/base.py:241-282 | overwrites the row with no challenge columns and the next revision |
| `StateStore.Store.ResolveSenderActions` | src/tg_pm_gatekeeper/store/base.py:284-292 | leaves the sender no pending or failed job and changes nobody else's |
| `StateStore.Store.ReleaseExpiredSuppression` | src/tg_pm_gatekeeper/store/base.py:301-325 | ends a suppression exactly when its time is up: unknown, next revision, jobs cancelled with erased references, reviews, evidence and snapshot gone |
| `StateStore.Store.SetMode` | src/tg_pm_gatekeeper/store/base.py:98-134 | switching to monitor cancels exactly the pending jobs bound to the mode, with their finishing time, and leaves every such sender with a pending review and nobody else with a new one; switching to protect changes only the mode |
| `StateStore.Store.EraseSenderRows` | src/tg_pm_gatekeeper/store/base.py:327-332 | deletes the sender from every table of the linked-table list, table by table |
| `StateStore.Store.Allow` | src/tg_pm_gatekeeper/store/senders.py:16-19 | allowed row, no open job left, evidence erased |
| `StateStore.Store.Revoke` | src/tg_pm_gatekeeper/store/senders.py:21-23 | unknown row, no open job left |
| `StateStore.Store.ResetTestSender` | src/tg_pm_gatekeeper/store/senders.py:25-45 | resets only if the row is unchanged since the given time and provisional or restricted |
| `StateStore.Store.Quarantine` | src/tg_pm_gatekeeper/store/senders.py:47-59 | quarantined row with the next revision |
| `StateStore.Store.Suppress` | src/tg_pm_gatekeeper/store/senders.py:61-97 | suppressed row with the next revision; a missing reference or identity keeps the stored one |
| `StateStore.Store.BeginChallengeIssue` | src/tg_pm_gatekeeper/store/challenges.py:51-91 | issuing row with a fresh count; columns the statement does not name keep their value |
| `StateStore.Store.BindChallengeMessage` | src/tg_pm_gatekeeper/store/challenges.py:93-104 | only an issuing row takes the message and becomes archiving |
| `StateStore.Store.ActivateChallenge` | src/tg_pm_gatekeeper/store/challenges.py:106-115 | only an archiving row becomes challenged, loses its prompt and gets the next revision |
| `StateStore.Store.ResetIncompleteChallenge` | src/tg_pm_gatekeeper/store/challenges.py:117-136 | only an issuing or archiving row is cleared, and then its evidence too |
| `StateStore.Store.MarkProvisional` | src/tg_pm_gatekeeper/store/challenges.py:138-140 | provisional row, evidence erased |
| `StateStore.Store.MarkChallengeGuidanceSent` | src/tg_pm_gatekeeper/store/challenges.py:142-149 | true exactly for an unmarked running challenge, and no mark is due afterwards |
| `StateStore.Store.RefreshChallengeExpiry` | src/tg_pm_gatekeeper/store/challenges.py:151-161 | moves the deadline of an issuing row only |
| `StateStore.Store.ExpireChallenge` | src/tg_pm_gatekeeper/store/challenges.py:163-191 | suppresses a challenged row exactly when the given deadline is the stored one |
| `StateStore.Store.IncrementAttempts` | src/tg_pm_gatekeeper/store/challenges.py:204-214 | adds one attempt and answers the new count, zero without a row |
| `StateStore.Store.ScheduleAction` | src/tg_pm_gatekeeper/store/actions.py:23-55 | inserts a job bound to the given revision, the sender's only pending one; nobody else's changes |
| `StateStore.Store.ClaimAction` | src/tg_pm_gatekeeper/store/actions.py:75-100 | answers the job exactly if it is pending, the mode allows it, the sender is restricted at the expected revision and the suppression has not ended |
| `StateStore.Store.FinishAction` | src/tg_pm_gatekeeper/store/actions.py:102-121 | finishes a pending job, which cannot be finished again; a completed one loses its reference |
| `StateStore.Store.ClearActionReference` | src/tg_pm_gatekeeper/store/actions.py:123-130 | forgets the action reference of the same suppression only |
| `StateStore.Store.EnqueueActionFailure` | src/tg_pm_gatekeeper/store/actions.py:132-154 | a failed job leaves a pending review, and no second one |
| `StateStore.Store.EnqueueReview` | src/tg_pm_gatekeeper/store/reviews.py:21-79 | a pending case is updated and no second one added: its count goes up, its end moves, and it takes the new content unless it is a would-be quarantine and the new one is not; without one a fresh case is added |
| `StateStore.Store.DecideSenderReviews` | src/tg_pm_gatekeeper/store/reviews.py:133-150 | leaves the sender no pending review and no open job; decided reviews lose their references |
| `StateStore.Store.SaveDialogSnapshot` | src/tg_pm_gatekeeper/store/restrictions.py:23-34 | the first snapshot wins |
| `StateStore.Store.ClearDialogSnapshot` | src/tg_pm_gatekeeper/store/restrictions.py:53-57 | drops the snapshot |
| `StateStore.Store.SaveEnforcementReview` | src/tg_pm_gatekeeper/store/restrictions.py:59-84 | the first evidence wins |
| `StateStore.Store.ActivateEnforcementReview` | src/tg_pm_gatekeeper/store/restrictions.py:86-102 | puts existing evidence under a final reason and end, keeps its content and any reference it has, and adds none |
| `StateStore.Store.SaveRestrictionReference` | src/tg_pm_gatekeeper/store/restrictions.py:279-287 | fills in a missing identity of a restriction only |
| `StateStore.Store.ArchiveRestriction` | src/tg_pm_gatekeeper/store/restrictions.py:340-348 | archives permanent suppressions only |
| `StateStore.Store.UnarchiveRestriction` | src/tg_pm_gatekeeper/store/restrictions.py:350-358 | unarchives archived permanent suppressions only |
| `StateStore.Store.ForgetRestriction` | src/tg_pm_gatekeeper/store/restrictions.py:360-373 | erases the sender exactly if it is a permanent suppression that was archived, long enough ago, with no pending or failed job; else nothing changes |
| `StateStore.Store.ClaimOutboundSlot` | src/tg_pm_gatekeeper/store/events.py:97-159 | prunes the hour, answers from what is left and records the answer; an invalid quota changes nothing |
| `StateStore.Store.ObserveCampaign` | src/tg_pm_gatekeeper/store/events.py:70-95 | drops sightings older than seven days and no others, records this one and counts the fingerprint's rows |
| `StateStore.Store.ClaimMessage` | src/tg_pm_gatekeeper/store/base.py:175-185 | true exactly for a number not seen before; every other number stays as recorded |
| `StateStore.Store.RecordAutomatedMessage` | src/tg_pm_gatekeeper/store/events.py:183-192 | records a sent message's number once and keeps the first time |
| `StateStore.Store.MessageIdsBetween` | src/tg_pm_gatekeeper/store/events.py:205-224 | exactly the sender's received and automated numbers within the bounds |
| `StateStore.Store.RecentLinkMessages` | src/tg_pm_gatekeeper/store/events.py:51-60 | counts the sender's links of the last minute; positive exactly if there is one |
| `StateStore.Store.RecordLinkMessage` | src/tg_pm_gatekeeper/store/events.py:62-68 | one more row of the link log |
| `StoreLemmas.SetModeReviews` | src/tg_pm_gatekeeper/store/base.py:98-134 | whoever loses a pending job to the mode change has a pending review afterwards |
| `StateStore.Store.Prune` | src/tg_pm_gatekeeper/store/maintenance.py:21-120 | one maintenance pass: its new tables and its three counters |
| `Retention.PruneKeepsLogs` | src/tg_pm_gatekeeper/store/maintenance.py:45-47 | of the audit and decision logs a pass keeps exactly the rows of the configured days whose sender is not erased, each as often as it was there |
| `Retention.PruneKeepsNumbers` | src/tg_pm_gatekeeper/store/maintenance.py:48-66 | so for the message numbers, and for campaign sightings with seven days; the kept ones are unchanged |
| `Retention.PruneKeepsTheHour` | src/tg_pm_gatekeeper/store/maintenance.py:51-57 | so for links and sent messages with one hour |
| `Retention.PruneKeepsReviews` | src/tg_pm_gatekeeper/store/maintenance.py:77-82 | a review stays exactly if its sender is neither given back nor erased and it is pending and has not expired, or was decided within the retention |
| `Retention.PruneKeepsEvidence` | src/tg_pm_gatekeeper/store/maintenance.py:83-85 | evidence stays exactly until it expires, and evidence and snapshot exactly while their sender is neither given back nor erased |
| `Retention.PruneKeepsJobs` | src/tg_pm_gatekeeper/store/maintenance.py:69-76 | open work of a sender given back is cancelled with its reference erased; any other job stays exactly if its sender is not erased and it is not finished past the retention, or failed while its sender is restricted |
| `Retention.PruneKeepsRows` | src/tg_pm_gatekeeper/store/maintenance.py:35-107 | a row is erased, given back with the next revision, or left as it is, by what it says itself |
| `Retention.GoneAre` | src/tg_pm_gatekeeper/store/maintenance.py:96-107 | whom a pass erases, judged on the tables it has already refreshed, are exactly the archived permanent suppressions past the retention with no pending or failed job in the tables it found |
| `Retention.PruneKeepsAnswers` | src/tg_pm_gatekeeper/store/maintenance.py:55-57 | when nobody is erased, a pass changes no later answer of the outbound quota |
| `Retention.PruneKeepsCampaigns` | src/tg_pm_gatekeeper/store/maintenance.py:58-61 | nor what any later sighting finds of other senders |
| `ProtocolSafety.DeletionIsSafe` | src/tg_pm_gatekeeper/store/actions.py:75-100 | in every run, a job that can be claimed now was scheduled at some step since which the sender has stood in the very same restriction (status, revision, reason, until) at every step |
| `ProtocolSafety.StoodSince` | src/tg_pm_gatekeeper/store/actions.py:23-55 | the step at which the job appeared, and the restriction at every step since |
| `ProtocolSafety.StepEvolves` | src/tg_pm_gatekeeper/store/base.py:241-332 | no step of any task, command or maintenance pass lowers a revision or changes a restriction without raising it, and erasing a row erases its jobs |
| `ProtocolSafety.ClaimHoldsTheRestriction` | src/tg_pm_gatekeeper/telegram_adapter.py:999-1046 | from claim to finish the sender's status and revision do not change, whatever the other tasks do |
| `ProtocolSafety.ModeChangeCancelsForGood` | src/tg_pm_gatekeeper/store/base.py:98-134 | in every run, a job that was pending and bound to the mode when the owner switched to monitor is never claimable again, whatever mode changes follow |
| `ProtocolSteps.ReachableInv` | src/tg_pm_gatekeeper/store/base.py:241-325 | every reachable state satisfies the invariant of rows, jobs, reviews, sections and attempts |
| `ProtocolSteps.StepKept` | src/tg_pm_gatekeeper/service.py:306-442 | every enabled step of every task, command, maintenance pass and crash keeps that invariant |
| `ProtocolChallenge.RowsAlwaysConsistent` | src/tg_pm_gatekeeper/store/challenges.py:51-191 | in every reachable state challenge columns exist exactly in their statuses, attempts and guidance only while challenged, identity only while restricted; for ordinary senders reason, end and archive time only on (permanent) suppressions |
| `ProtocolChallenge.QueuesAlwaysConsistent` | src/tg_pm_gatekeeper/store/base.py:136-173 | in every reachable state: at most one pending job and review per sender, finished jobs have a time, completed ones and decided reviews no reference, and the preflight finds no stale job of an ordinary sender |
| `ProtocolChallenge.EachChallengeEndsOnce` | src/tg_pm_gatekeeper/store/challenges.py:106-191 | in every run and for every sender, activations equal endings plus the challenge still open |
| `ProtocolChallenge.ClosedNeverReopens` | src/tg_pm_gatekeeper/store/challenges.py:106-191 | a challenge, known by its revision while the row is not erased, is never open again once it was not |
| `ProtocolChallenge.ChallengeStep` | src/tg_pm_gatekeeper/service.py:868-945 | a step leaves an open challenge as it is or the lock holder closes it for good with the next revision |
| `ProtocolChallenge.OutsiderOnChallenge` | src/tg_pm_gatekeeper/cli.py:33-72 | the command line, maintenance and crashes never touch an open challenge |
| `ProtocolChallenge.AttemptsAreWrongAnswers` | src/tg_pm_gatekeeper/service.py:896-911 | attempts equal the number of counting acts since the last activating act; they are below the limit exactly if no crash or exception since then hit a section that had counted the last one |
| `ProtocolChallenge.CountersFollowActs` | src/tg_pm_gatekeeper/service.py:896-911 | the protocol's counters are functions of the acts of the run: wrong answers since activation, and interruptions of an exhausted section |
| `ProtocolChallenge.CrashCanLeaveNoAttempt` | src/tg_pm_gatekeeper/service.py:896-908 | a run in which a crash leaves a strict challenge open with no attempt left |
| `ProtocolDecisions.DecisionStandsExactlyUntilWritten` | src/tg_pm_gatekeeper/cli.py:59-70 | in every run the row a command wrote stands exactly until the next command on the sender or the holder's next write that does not look at the row: letting in, beginning a challenge, quarantine, suppression |
| `ProtocolDecisions.UnseenExactlyWhenReadBefore` | src/tg_pm_gatekeeper/service.py:387-402 | the holder about to write saw another row than the command wrote exactly if it read before the command landed and holds on to that |
| `ProtocolDecisions.AllowIsLostExactlyToAnOldView` | src/tg_pm_gatekeeper/store/challenges.py:51-91 | while an allow stands the service can begin a challenge over it or restrict the sender exactly from a view of an unknown or provisional sender read before the command landed and held since |
| `Locks.NobodyWaitsForever` | src/tg_pm_gatekeeper/telegram_adapter.py:563-580 | from every waiting task a chain of owners leads to one that can go on, because maintenance locks ascend and the command lock comes first |
| `Locks.DeadlockFree` | src/tg_pm_gatekeeper/operator_controls.py:73-126 | in every reachable state of the lock system, cancelled waiting tasks included, some task that stands in the way can run |
| `Locks.MutualExclusion` | src/tg_pm_gatekeeper/service.py:215-227 | two tasks never hold the same sender's lock |
| `Locks.SenderLockPool.Lock` | src/tg_pm_gatekeeper/service.py:221-227 | while anybody keeps a sender's lock object, everybody gets that same object |
| `LockSections.LocksRunInProtocol` | src/tg_pm_gatekeeper/service.py:215-227 | every run of the locks is a run of the protocol's acquisitions and releases, whose open sections are exactly the owned sender locks |
| `LockSections.SectionHasOneOwner` | src/tg_pm_gatekeeper/service.py:215-227 | behind every open section stands exactly one task that holds the sender's lock |
| `ServiceSpec.AfterArchiveEnds` | src/tg_pm_gatekeeper/service.py:758-777 | behind a confirmed archive the row is challenged, cleared or left archiving, decided by the activation and the three restore tries; a command in between has the last word |
| `ServiceSpec.EnforcedEnds` | src/tg_pm_gatekeeper/service.py:752-777 | the same from before the archive: refused or raised clears everything |
| `ServiceSpec.ResumedEnds` | src/tg_pm_gatekeeper/service.py:1416-1433 | in recovery a raising archive or activation leaves the row archiving without a restore |
| `ServiceSpec.RecoveryStaysArchivingExactlyWhen` | src/tg_pm_gatekeeper/service.py:1358-1439 | recovery leaves the row archiving exactly if it comes to the archive call, that call or the activating statement raises, and no command lands meanwhile |
| `ServiceSpec.OwnerHasTheLastWord` | src/tg_pm_gatekeeper/service.py:700-785 | a delivery leaves the sender allowed exactly if the owner's last word was to allow, running exactly if everything went well, archiving exactly if it gave up |
| `ServiceSpec.DecisionSurvivesUnasked` | src/tg_pm_gatekeeper/service.py:796-804 | what the owner decides during the archive without a question survives exactly if that archive is not confirmed; else the quarantine stands on top of it, two revisions on |
| `ServiceSpec.DeletionCanRun` | src/tg_pm_gatekeeper/service.py:1092-1104 | a deletion just scheduled is claimable exactly while its restriction lasts, in protect mode or if mode independent |
| `Telegram.Actions.RestoreWithRetry` | src/tg_pm_gatekeeper/service.py:1168-1177 | at most three tries, stopping at the first confirmed one |
| `Service.GatekeeperService.IssueChallenge` | src/tg_pm_gatekeeper/service.py:687-785 | for every pattern of failing calls and commands that land while they are awaited, and whatever row a command left before: one slot is claimed and its answer recorded, and the question sent exactly if it was granted and gets through; then running with its message, question and a timer for exactly the stored expiry; or cleared with its message withdrawn; or left archiving, exactly after a confirmed archive, a failed activation and three failed restores; without a slot, the quarantine written over whatever a command wrote exactly after a confirmed archive |
| `Service.GatekeeperService.ClaimSlot` | src/tg_pm_gatekeeper/service.py:1204-1214 | the test sender gets a slot and leaves no row; anybody else gets it exactly if the last hour has room, and the answer is recorded as a row of its kind |
| `Service.GatekeeperService.DecisionSurvives` | src/tg_pm_gatekeeper/service.py:687-822 | a decision that lands while a call of the issue is awaited stands, exactly unless there was no slot and the archive was confirmed; earlier landings are AllowedExactlyWhen |
| `Service.GatekeeperService.AllowedExactlyWhen` | src/tg_pm_gatekeeper/service.py:306-385 | for every message and every landing of commands, before the first write or during a call: the sender is allowed afterwards exactly if it was let in, or the last command allowed it and no suppression, no challenge begun after it and no quarantine behind a confirmed archive was written over that |
| `Service.GatekeeperService.RevocationStandsExactlyWhen` | src/tg_pm_gatekeeper/service.py:306-385 | a revocation that lands before the first write leaves the sender unknown exactly if the message does not let it in, suppress it, leave a challenge or quarantine it |
| `Service.GatekeeperService.Deliver` | src/tg_pm_gatekeeper/service.py:700-785 | the same endings from the prompt on, and the one outcome that goes with each |
| `Service.GatekeeperService.RollBack` | src/tg_pm_gatekeeper/service.py:767-777 | the exception handler: restores only behind a confirmed archive, clears only if nothing is left archived, cancels the timer |
| `Service.GatekeeperService.RateLimitFallback` | src/tg_pm_gatekeeper/service.py:787-822 | quarantines exactly after a confirmed archive, over any command that landed meanwhile; else drops the evidence and leaves the command's row; a review exists if there is a reference |
| `Service.GatekeeperService.RecoverIncompleteChallenge` | src/tg_pm_gatekeeper/service.py:1358-1439 | for every pattern: not starting changes nothing; overdue, hopeless, unsendable or unarchivable is cleared with its message withdrawn; else running with a timer for exactly the stored expiry; left archiving exactly when an exception of the archive or the activation escapes; the prompt is sent again exactly if its message cannot be found, without a slot |
| `Service.GatekeeperService.SendNotice` | src/tg_pm_gatekeeper/service.py:1179-1202 | one slot is claimed and its answer recorded; a message number exactly if it was granted and the message delivered, and then that number is recorded as automated |
| `Service.GatekeeperService.FailExhaustedAttempts` | src/tg_pm_gatekeeper/service.py:1021-1117 | restricted in any case; the deletion is scheduled, ten seconds away and bound to the new revision, exactly if the warning was delivered and the sender can be found; with it the test sender's reset, which its new row allows; a quarantine without a warning carries the identity behind the reply |
| `Service.GatekeeperService.ExhaustedFindsTheSender` | src/tg_pm_gatekeeper/service.py:1066-1104 | that deletion goes by the reply's reference, or by the stored one if the reply has none or an empty one |
| `Service.GatekeeperService.FinalizeTimeoutFailure` | src/tg_pm_gatekeeper/service.py:1216-1300 | deletion exactly if the notice was delivered and a reference exists, else quarantine; for the test sender no job, but its messages since the challenge and its reset are scheduled |
| `Service.GatekeeperService.ExpireChallenge` | src/tg_pm_gatekeeper/service.py:1302-1342 | true exactly for the stored deadline of a running challenge, otherwise nothing changes; without a connection the sender is suppressed for the profile's time and nothing is sent or scheduled |
| `Service.GatekeeperService.ExpireLateReply` | src/tg_pm_gatekeeper/service.py:913-945 | a late reply ends the challenge like the timer and cancels the timer |
| `Service.GatekeeperService.AcceptCorrectAnswer` | src/tg_pm_gatekeeper/service.py:968-1019 | provisional and timer gone exactly after a confirmed restore, else the challenge stays and a review is queued; the messages from the prompt on are scheduled for deletion, and the test sender's reset |
| `Service.GatekeeperService.VerificationIdsAre` | src/tg_pm_gatekeeper/service.py:993-1011 | the messages that go are the prompt, the reply, the notice and everything either side sent from the prompt up to the last of them, and no other |
| `Service.GatekeeperService.IgnoreWithGuidance` | src/tg_pm_gatekeeper/service.py:947-966 | costs no attempt; the hint is sent and marked at most once |
| `Service.GatekeeperService.CountWrongAnswer` | src/tg_pm_gatekeeper/service.py:896-911 | one more attempt while below the limit (one if strict), else the exhaustion ending |
| `Service.GatekeeperService.HandleChallenge` | src/tg_pm_gatekeeper/service.py:868-911 | the complete effect of one reply: late, before the prompt, not a number, right, wrong, last wrong; at most one slot is claimed, for a notice |
| `Service.GatekeeperService.PassesExactlyWhenRight` | src/tg_pm_gatekeeper/service.py:876-896 | a challenged sender becomes provisional exactly with a reply sent by the deadline, not older than the prompt unless it answers it, whose digest is the stored one and not empty, and with one of three restores confirmed |
| `Service.GatekeeperService.WrongAnswersCost` | src/tg_pm_gatekeeper/service.py:898-911 | any other number in time costs one attempt, or restricts the sender: at the first one if strict, else at the configured number |
| `Service.GatekeeperService.QuestionStays` | src/tg_pm_gatekeeper/service.py:868-911 | while the challenge runs no reply changes its digest, deadline, profile or message, and its attempts go up exactly with a wrong number in time |
| `Service.GatekeeperService.PassesWithTheIssuedDigest` | src/tg_pm_gatekeeper/service.py:713-726 | through any number of replies to the challenge that was issued: the sender gets through exactly with that challenge's digest, and its attempts are the other numbers it sent in time |
| `Service.GatekeeperService.AnsweredTells` | src/tg_pm_gatekeeper/service.py:1044-1092 | a reply never leads to a deletion the sender was not told about, and the outcome names the state reached |
| `Service.GatekeeperService.ScheduleSuppressedDelete` | src/tg_pm_gatekeeper/service.py:662-685 | a suppressed sender who writes again gets a deletion bound to the standing suppression, if it can be found |
| `Service.GatekeeperService.SchedulePermanentSuppression` | src/tg_pm_gatekeeper/service.py:617-660 | permanent suppression with an immediate deletion bound to it, or nothing without a reference |
| `Service.GatekeeperService.SettleBeforeScreening` | src/tg_pm_gatekeeper/service.py:387-442 | which states decide a message without looking at it, and the whole new database in each case |
| `Service.GatekeeperService.HandleLocked` | src/tg_pm_gatekeeper/service.py:306-385 | the whole effect of one message in every branch: a number seen before does nothing, a new one is screened with its links and campaign recorded, what the detector raises is caught and does nothing, a command may land before the first write; the outcome names the state reached or the command has the last word; at most one slot is claimed and at most one letter sent on it; a started challenge is the one at hand, strict exactly from 30 points on; other senders are untouched; every deletion belongs to the restriction that stands; monitor mode sends, archives and schedules nothing for an ordinary sender outside a challenge |
| `Service.GatekeeperService.QuotedDenialIsAskedStrictly` | src/tg_pm_gatekeeper/rules.py:502-512 | a listed domain that is only quoted is by itself enough to be asked strictly |
| `Service.GatekeeperService.PlainIsAskedPlainly` | src/tg_pm_gatekeeper/policy.py:104-110 | a message without links, buttons, promotion, quotes or forwarding is asked in the standard way, with or without an empty opener |
| `Service.GatekeeperService.RenewedRow` | src/tg_pm_gatekeeper/service.py:395-420 | before a message is looked at, a row starts over exactly if it is a suppression whose time is up or, for the test sender, allowed, or provisional or quarantined for a minute |
| `Service.GatekeeperService.LinksAreRemembered` | src/tg_pm_gatekeeper/service.py:453-460 | a message with a link makes the sender's next one within a minute a burst |
| `Service.GatekeeperService.TemplatesAreRemembered` | src/tg_pm_gatekeeper/service.py:461-469 | a template one sender showed is a repeated campaign for every other sender for seven days |
| `Service.GatekeeperService.EvidenceSignals` | src/tg_pm_gatekeeper/service.py:444-469 | the detector's signals on the sender's recent links, plus the campaign signal exactly if another sender showed the template within seven days; link and sighting recorded |
| `Service.GatekeeperService.SuppressedForGoodExactlyWhen` | src/tg_pm_gatekeeper/service.py:306-385 | from the message to the row: what the state leaves open ends suppressed without end exactly in protect mode, with a reference, for a denied link of the message itself or a corroborated campaign of another sender |
| `Service.GatekeeperService.SuppressedExactlyWhenTold` | src/tg_pm_gatekeeper/service.py:913-945 | the outcome suppressed goes with the suppressed status, except exactly for a late reply of an ordinary sender who could not be told or found |
| `Counterexamples.RecoveryStaysArchiving` | src/tg_pm_gatekeeper/service.py:1416-1433 | a run of the service on a reachable database: the activating statement raises, and recovery leaves the row archiving although a restore would have worked |
| `Counterexamples.LateReplyIsQuarantined` | src/tg_pm_gatekeeper/service.py:913-945 | a run of the service on a reachable database: answer suppressed, status quarantined |
| `Counterexamples.DeliveryIsOvertaken` | src/tg_pm_gatekeeper/service.py:719-745 | a run of the service on a reachable database: the owner allows the sender while the prompt is sent |
| `Counterexamples.AllowIsLostToAChallenge` | src/tg_pm_gatekeeper/service.py:687-726 | a run of the service on a reachable database: an allow that lands after the row was read is overwritten by the challenge, with a free slot |
| `Counterexamples.AllowIsLostToAChallengeInARun` | src/tg_pm_gatekeeper/store/challenges.py:68-91 | the same as a run of the protocol |
| `Counterexamples.AllowIsOverwritten` | src/tg_pm_gatekeeper/service.py:787-804 | a run of the service on a reachable database: the owner's allow is overwritten by the quarantine behind the archive |
| `Counterexamples.AllowIsOverwrittenInARun` | src/tg_pm_gatekeeper/service.py:796-804 | the same as a run of the protocol |
| `Owner.OwnerActions.ReviewDecide` | src/tg_pm_gatekeeper/dashboard_backend.py:177-243 | refused before anything is done exactly unless the case is pending, has not run out and has a reference; a refused verdict changes no row, job or review, but for a command that landed while the evidence or the archive was awaited; the sender's open cases take the verdict, its time and no reference; legitimate leaves the sender allowed with no claimable job; spam leaves it permanently suppressed, archived and with one immediate mode-independent job bound to that suppression; no verdict leaves a pending review |
| `Owner.OwnerActions.Legitimate` | src/tg_pm_gatekeeper/dashboard_backend.py:195-206 | refused exactly if an archived dialog could not be given back |
| `Owner.OwnerActions.Spam` | src/tg_pm_gatekeeper/dashboard_backend.py:207-238 | refused exactly if the account is unknown or a dialog not yet archived could not be; a command that lands while the evidence or that archive is awaited stands exactly if the verdict is refused |
| `Owner.OwnerActions.AllowCase` | src/tg_pm_gatekeeper/restriction_actions.py:42-60 | lifts a restriction exactly if it stands, has an identity and the dialog was restored; then no job of the sender can be claimed |
| `Owner.OwnerActions.ReleaseAfterOwnerContact` | src/tg_pm_gatekeeper/restriction_actions.py:62-84 | the same for challenges and restrictions after the owner wrote; the challenge's message goes too |
| `Owner.OwnerActions.ReleaseLegacy` | src/tg_pm_gatekeeper/dashboard_backend.py:382-401 | releases exactly a restriction without identity, without touching the dialog |
| `Owner.OwnerActions.DialogDeletionWorker` | src/tg_pm_gatekeeper/telegram_adapter.py:999-1046 | the conversation is deleted only behind a successful claim; the job is then finished exactly once, completed without its reference or failed with a review |
| `ProtocolPaths.DeliveryPath` | src/tg_pm_gatekeeper/service.py:687-785 | the protocol allows the calls of a delivery in the program's order |
| `ProtocolPaths.ExhaustionPath` | src/tg_pm_gatekeeper/service.py:896-1104 | the protocol allows the calls after the last wrong answer in the program's order |
| `ProtocolPaths.ExhaustionBindsItsJob` | src/tg_pm_gatekeeper/service.py:1074-1104 | on that path the job carries the revision of the restriction just written |
| `ProtocolPaths.TimeoutPath` | src/tg_pm_gatekeeper/service.py:1302-1342 | the protocol allows the calls of a timeout in the program's order |
| `ProtocolPaths.TimeoutBindsItsJob` | src/tg_pm_gatekeeper/service.py:1240-1280 | on that path the job carries the revision of the suppression |
| `ProtocolPaths.SpamPath` | src/tg_pm_gatekeeper/dashboard_backend.py:219-236 | the protocol allows the calls of a spam verdict in the program's order |
| `ProtocolPaths.DeletionPath` | src/tg_pm_gatekeeper/telegram_adapter.py:1005-1030 | the protocol allows the calls of the deletion worker in the program's order |
| `ProtocolPaths.DeletionsHappen` | src/tg_pm_gatekeeper/store/actions.py:75-100 | a run exists in which a deletion can be claimed, so the safety theorem is not empty |
| `ServiceRuns.MessageIsARun` | src/tg_pm_gatekeeper/service.py:301-385 | from every system in which the lock was just taken, a message - duplicates, renewal, a command before the first write, every branch of replying, asking and suppressing - has a run of the protocol to an end the handler's contract allows |
| `ServiceRuns.DeliveryRun` | src/tg_pm_gatekeeper/service.py:700-785 | an undisturbed delivery, its rollback included, is a run to the ending its contract gives, with the question asked |
| `ServiceRuns.UnaskedRun` | src/tg_pm_gatekeeper/service.py:787-822 | so is the archive without a question |
| `ServiceRuns.ExhaustedRun` | src/tg_pm_gatekeeper/service.py:896-1104 | so is the last wrong answer, warned or not |
| `ServiceRuns.LateRun` | src/tg_pm_gatekeeper/service.py:913-945 | so is a timeout, told or silent |
| `ServiceRuns.PermanentRun` | src/tg_pm_gatekeeper/service.py:617-660 | so is conclusive evidence, in each mode and with or without a reference |
| `OwnerRuns.RecoveryIsARun` | src/tg_pm_gatekeeper/service.py:1358-1439 | so is the recovery of an incomplete challenge, an escaping exception included |
| `OwnerRuns.VerdictIsARun` | src/tg_pm_gatekeeper/dashboard_backend.py:177-243 | so is each verdict of the owner on a case |
| `OwnerRuns.AllowedCaseIsARun` | src/tg_pm_gatekeeper/restriction_actions.py:42-84 | so is lifting a restriction from its case or after the owner wrote |
| `Outbound.TableIsLastHour` | src/tg_pm_gatekeeper/store/events.py:120-131 | under a clock that never goes back the pruned table is exactly the last hour of the rows it started with and all inserted since |
| `Outbound.AnswersLikeFullHistory` | src/tg_pm_gatekeeper/store/events.py:133-153 | every claim is answered as if nothing had been deleted |
| `Outbound.EveryHourIsBounded` | src/tg_pm_gatekeeper/store/events.py:133-153 | from any table within the caps, every hour of the full history holds at most limit accepted messages, limit minus reserve challenges and the per-sender number of notices |
| `Outbound.StoredRowsAreBounded` | src/tg_pm_gatekeeper/store/events.py:133-153 | the same bounds on the stored rows for any clock |
| `Outbound.CapsAreKept` | src/tg_pm_gatekeeper/store/events.py:133-153 | a table within the caps stays within them, and an empty one is |
| `Outbound.NoticeRefusedOnlyAfterReserve` | src/tg_pm_gatekeeper/store/events.py:133-153 | a sender below its own limit is refused a notice only after at least reserve notices or rows from before the categories in the last hour, whatever challenges came before |
| `Outbound.FreeExactlyWhen` | src/tg_pm_gatekeeper/store/events.py:124-145 | a prompt gets a slot exactly while fewer than limit minus reserve messages were accepted within the hour, a notice exactly while fewer than limit were and fewer than its own number to that sender |
| `Spending.ClaimRaises` | src/tg_pm_gatekeeper/store/events.py:145-153 | a claim raises the hour's count of accepted messages, of prompts or of the sender's notices by one exactly if it was granted and belongs there |
| `Spending.EveryHourIsCapped` | src/tg_pm_gatekeeper/service.py:1204-1214 | in every order of handled messages, timers, maintenance passes and erasures under a clock that never goes back, from any table: in every hour at most limit letters are sent, at most limit minus reserve of them prompts, and at most the per-sender number of notices to one sender; the test sender and senders whose rows are erased are not counted |
| `Spending.PassRemoves` | src/tg_pm_gatekeeper/store/maintenance.py:55-57 | the store's maintenance pass is one of the steps of such a run |
| `Spending.ErasureFreesExactlyWhen` | src/tg_pm_gatekeeper/store/events.py:124-145 | after an erasure a claim is granted exactly if what was sent to the other senders within the hour leaves room |
| `Spending.ErasureFreesASlot` | src/tg_pm_gatekeeper/store/base.py:327-332 | erasing a sender's rows can free a slot within the hour, so the exception is needed |
| `Campaign.TableShowsWindow` | src/tg_pm_gatekeeper/store/events.py:70-95 | from any table, the upserted, pruned table holds a sighting exactly if its start or the log has it within seven days |
| `Campaign.CountsDistinctSenders` | src/tg_pm_gatekeeper/store/events.py:84-95 | the count is the number of distinct senders in the rows it started with and the full log, of the last seven days |
| `Campaign.RepeatedIffAnotherSender` | src/tg_pm_gatekeeper/service.py:461-468 | the count reaches two exactly if another sender showed the fingerprint in the window |
| `Campaign.CountsTwoIfShownByAnother` | src/tg_pm_gatekeeper/store/events.py:70-95 | on any stored table the count reaches two exactly if it shows another sender within the window |
| `Policy.OrderDoesNotMatter` | src/tg_pm_gatekeeper/policy.py:40-110 | decisions do not depend on the order of the signals |
| `Policy.MoreEvidenceIsNeverMilder` | src/tg_pm_gatekeeper/policy.py:81-110 | adding signals of nonnegative weight anywhere never lowers score or severity |
| `Policy.PartScoresLess` | src/tg_pm_gatekeeper/policy.py:82 | any part of nonnegative signals scores no more than the whole |
| `Rules.DeniedByParent` | src/tg_pm_gatekeeper/rules.py:244-245 | a domain is denied exactly if it or one of its parent names is listed |
| `Rules.SubdomainsAreDenied` | src/tg_pm_gatekeeper/rules.py:244-245 | every subdomain of a denied domain is denied |
| `Rules.DetectEvidenceSignals` | src/tg_pm_gatekeeper/rules.py:280-514 | reports exactly the specified signals in order |
| `Rules.DetectedExactly` | src/tg_pm_gatekeeper/rules.py:280-514 | each signal that holds is reported once, with its own source and weight, and no other |
| `Rules.CodesAreDistinct` | src/tg_pm_gatekeeper/rules.py:286-514 | no code occurs twice, with or without the repeated-campaign signal |
| `Rules.DeniedGateMeans` | src/tg_pm_gatekeeper/policy.py:44-53 | the denied-domain gate is open exactly if a non-quoted link is on the denylist |
| `Rules.CampaignGateMeans` | src/tg_pm_gatekeeper/policy.py:54-75 | the campaign gate is open exactly for a repeated campaign that is forwarded promotion with several links, or a promoting preview with several previewed links |
| `Rules.GateForcesScore` | src/tg_pm_gatekeeper/policy.py:81-96 | an open gate alone makes the score reach 70 |
| `Rules.ScoreIsPoints` | src/tg_pm_gatekeeper/rules.py:280-514 | the score is the sum of the weights of what holds of the message, each written out |
| `Rules.QuotedDenialIsStrict` | src/tg_pm_gatekeeper/policy.py:96-103 | a listed domain that is only quoted makes at least 30 points and, unless the campaign repeats, the strict question |
| `Rules.PlainIsStandard` | src/tg_pm_gatekeeper/policy.py:104-110 | a plain message makes five points for an empty opener and none else, and gets the standard question |
| `Rules.SeveralLinksMeans` | src/tg_pm_gatekeeper/rules.py:395-405 | several links are two that differ, in address or domain, however often each occurs |
| `Rules.SuppressedExactlyWhen` | src/tg_pm_gatekeeper/policy.py:85-96 | for every message, permanent suppression exactly if the gate is open, in terms of the message: denied own link, or repeated and corroborated campaign |
| `Dialog.SnapshotIsOriginal` | src/tg_pm_gatekeeper/telegram_adapter.py:269-347 | through any run of archives and snapshot-held restores with any request failing or losing its answer, a held snapshot is the dialog before the first archive, and without one the dialog is as it was |
| `Dialog.RestoreBringsBack` | src/tg_pm_gatekeeper/restriction_actions.py:86-116 | a restore that succeeds brings back folder, silence and effective mute and drops the snapshot; one that fails keeps it |
| `Dialog.RestoreWithoutSnapshot` | src/tg_pm_gatekeeper/restriction_actions.py:90-98 | without a snapshot a restore is right exactly for a dialog with the default settings |
| `Dialog.DialogControl.ArchiveAndMute` | src/tg_pm_gatekeeper/telegram_adapter.py:269-316 | the new dialog and snapshot for every fate of its requests; success means archived, silent and muted with a snapshot |
| `Dialog.DialogControl.RestoreFromPending` | src/tg_pm_gatekeeper/telegram_adapter.py:318-347 | the new dialog and snapshot for every fate of its requests |
| `Utf16.DecodeEncode` | src/tg_pm_gatekeeper/message_facts.py:19-23 | decoding UTF-16-LE (RFC 2781, sections 2.1 and 2.2) gives back every text |
| `Utf16.EntityCoversSpan` | src/tg_pm_gatekeeper/telegram_adapter.py:104-121 | the entity of a valid span, read back, is exactly the span's code points |
| `Utf16.EntitiesKeepOrder` | src/tg_pm_gatekeeper/telegram_adapter.py:112-120 | entities are ordered and disjoint exactly as their spans are |
| `Utf16.FormattingEntities` | src/tg_pm_gatekeeper/telegram_adapter.py:104-121 | refused exactly if a span is invalid; otherwise every entity covers its span and order is kept |
| `Utf16.GreedyIsEarliest` | src/tg_pm_gatekeeper/service.py:131-138 | searching from the end of the last find never passes a possible placement |
| `Utf16.Emphasized` | src/tg_pm_gatekeeper/service.py:131-138 | succeeds exactly if the fragments can be placed in order without overlap; the spans are ascending, disjoint and cover their fragments |
| `Utf16.SendEmphasis` | src/tg_pm_gatekeeper/telegram_adapter.py:248-267 | what a receiver reads at the sent entities are the emphasised fragments, in order |
| `Maintenance.ErasedExactly` | src/tg_pm_gatekeeper/store/schema.py:175-188 | erasing leaves nothing of the erased senders and everything of the others, in every linked table |
| `Maintenance.NothingIsMentioned` | src/tg_pm_gatekeeper/store/schema.py:175-188 | a sender without stored data appears in no linked table |
| `Maintenance.ForgetIsExact` | src/tg_pm_gatekeeper/store/restrictions.py:360-373 | an eligible sender is gone from every table; an ineligible one and everybody else keep all |
| `Maintenance.PruneTouchesPermitted` | src/tg_pm_gatekeeper/store/maintenance.py:35-107 | a pass changes rows of permitted senders only |
| `Maintenance.ListedSendersSuffice` | src/tg_pm_gatekeeper/store/restrictions.py:385-401 | on one database state a pass limited to the listed senders does what an unlimited one does and changes no other row |
| `Maintenance.CountersAddUp` | src/tg_pm_gatekeeper/store/maintenance.py:79-107 | forgotten plus skipped is the number of archived permanent restrictions past the cutoff |
| `Maintenance.BulkErasesOnlyEligible` | src/tg_pm_gatekeeper/dashboard_backend.py:364-380 | whatever others do meanwhile, each step of the bulk command erases its candidate exactly if it is eligible then |
| `Maintenance.UndisturbedSteps` | src/tg_pm_gatekeeper/dashboard_backend.py:364-380 | with nobody else at work the first n steps erase and count exactly the eligible ones among n candidates |
| `Maintenance.ForgetBulk` | src/tg_pm_gatekeeper/dashboard_backend.py:357-380 | the loop over the candidates; undisturbed, its count is the previewed one |
| `Listing.ListsPartition` | src/tg_pm_gatekeeper/store/restrictions.py:211-234 | archived and needs-attention lists are disjoint and together all restrictions, under every further filter |
| `Ordering.SortedIsUnique` | src/tg_pm_gatekeeper/store/restrictions.py:164-168 | a strict order leaves exactly one sorted list of a set |
| `Listing.PageExistsIffShown` | src/tg_pm_gatekeeper/dashboard_backend.py:828-835 | a page is served exactly if the pager shows it |
| `Listing.PagesAreTheList` | src/tg_pm_gatekeeper/dashboard_backend.py:485-504 | all pages in a row are the whole ordered list without repeats |
| `Listing.ActiveRestrictions` | src/tg_pm_gatekeeper/store/restrictions.py:150-182 | exactly the restrictions the filter shows, newest first: by the time of the last change, or of archiving in the archived list, and by key at the same time; read off the rows |
| `Listing.ListIsNewestFirst` | src/tg_pm_gatekeeper/store/restrictions.py:163-167 | the ordered list is newest first on the rows, and holds exactly what the partition, the reason and the age filter say of the rows |
| `Listing.CasePage` | src/tg_pm_gatekeeper/dashboard_backend.py:485-504 | the total of one clock reading and the page of the ordered list of another, at most fifty, newest first, nothing beyond the last page shown |
| `Listing.SameSelectionAcrossClocks` | src/tg_pm_gatekeeper/store/restrictions.py:190-234 | the two readings select the same restrictions exactly if no evidence that expires in between turns the filtered reason of a sender |
| `Listing.PagesMatchTheTotal` | src/tg_pm_gatekeeper/dashboard_backend.py:485-504 | then the pages behind the pager are the whole list |
| `Listing.ClocksCanDisagree` | src/tg_pm_gatekeeper/dashboard_backend.py:485-504 | otherwise the pager may count a restriction that the list no longer holds |
| `Listing.EveryRestrictionHasOneStatus` | src/tg_pm_gatekeeper/store/restrictions.py:301-311 | quarantined plus suppressed is the length of the list |
| `Listing.CountReasons` | src/tg_pm_gatekeeper/store/restrictions.py:309-314 | reason counts are exact, complete and add up |
| `Listing.EnforcementStatistics` | src/tg_pm_gatekeeper/store/restrictions.py:289-338 | status counts and reason counts each add up to the list, each reason counts the list filtered by it, and the reviewable, identifiable and remaining counts are exact |
| `Operator.DelayGrowsWithinBounds` | src/tg_pm_gatekeeper/operator_controls.py:424-429 | the retry delay never shrinks, starts at 30 and stops at 3600 seconds |
| `Operator.SchedulingNeverPostpones` | src/tg_pm_gatekeeper/store/actions.py:156-170 | queueing again keeps the earlier deadline and the retry count |
| `Operator.LeavesOnlyDeleted` | src/tg_pm_gatekeeper/operator_controls.py:413-436 | in every run an artifact leaves the queue only through a successful deletion that contained it |
| `Operator.RoundLowersDue` | src/tg_pm_gatekeeper/operator_controls.py:413-436 | every round takes its whole batch off the due list, whatever Telegram answers |
| `Operator.RetriesAreRaisedRounds` | src/tg_pm_gatekeeper/operator_controls.py:420-431 | while an artifact stays queued its retry count is the number of failed rounds that contained it |
| `Operator.RaisedRoundWaits` | src/tg_pm_gatekeeper/operator_controls.py:424-431 | after a failed round the whole batch waits half a minute, doubled for each retry of its most retried artifact, at most an hour |
| `Operator.ArtifactQueue.ScheduleOperatorArtifacts` | src/tg_pm_gatekeeper/store/actions.py:156-170 | refused arguments change nothing; otherwise the upserted queue |
| `Operator.ArtifactQueue.DueOperatorArtifacts` | src/tg_pm_gatekeeper/store/actions.py:172-183 | the earliest due artifacts in the order of their deadlines, with their retry counts, as many as the limit allows |
| `Operator.ArtifactQueue.DeleteDueArtifacts` | src/tg_pm_gatekeeper/operator_controls.py:413-436 | works exactly if something is due, and then makes one round of the queue |
| `Operator.ArtifactQueue.Drain` | src/tg_pm_gatekeeper/operator_controls.py:393-397 | at a standing clock the loop ends with nothing due after one round per full or started batch |
| `SessionCache.CacheIsNewest` | src/tg_pm_gatekeeper/telegram_adapter.py:188-211 | the bounded cache is always the newest part of the full recency list |
| `SessionCache.CachedExactlyWhenRecent` | src/tg_pm_gatekeeper/telegram_adapter.py:188-239 | a user is cached exactly if it was touched and fewer than the limit of others were touched since |
| `SessionCache.CachedHashIsTheLastSeen` | src/tg_pm_gatekeeper/telegram_adapter.py:213-239 | the cached hash is the one last seen |
| `SessionCache.SizePlusEvictions` | src/tg_pm_gatekeeper/telegram_adapter.py:205-211 | size plus evictions is the number of insertions of absent users |
| `SessionCache.BoundedStringSession.ProcessEntities` | src/tg_pm_gatekeeper/telegram_adapter.py:188-211 | each user of an answer is one more event of the cache's history |
| `SessionCache.BoundedStringSession.GetInputEntity` | src/tg_pm_gatekeeper/telegram_adapter.py:213-239 | a complete key is answered as it is; another is looked up under each number it may stand for, answered exactly if one of them is recent, with the first such and the hash last seen, and touches only that one |
| `Stall.UpdateStallDetector.Observe` | src/tg_pm_gatekeeper/telegram_adapter.py:90-101 | an alarm exactly if every sample since one at least the threshold ago saw a backlog, with the time since its first sample |

## Left out

- Telethon requests, sockets, the dashboard's HTTP and RPC servers, HTML, JavaScript, shell scripts, configuration parsing and logging: input and output only.
- SQLite, schema migrations and thread locks: each store method is one transaction, and only the activating statement of a challenge may fail.
- Cryptography: references, envelopes and digests are values; opening a reference is a function that may fail.
- Patterns, NFKC normalisation and URL parsing: arbitrary functions of the text (`Rules.Reader`), so no theorem depends on them. The campaign template and its candidate rule are part of what decides that a fingerprint is observed, which is a parameter.
- `set_challenge`, `decide_review` by number and the service's `_quarantine`: used by tests only.
- Audit rows, decision records and the display-only statistics; the tables they live in are pruned and erased as logs of sender and time.
- The outcome column of a processed message: nothing reads it. The workers that carry out the scheduled deletion of single verification and test messages: they call Telegram and nothing else.
- Protocol sections allow the call orders of the programs and more; the theorems hold for all of them. `service_runs.dfy` and `owner_runs.dfy` show that every message, recovery and verdict has such a run to an end its contract allows; the contracts leave some columns open, so they do not say that the program takes that very run.
- The protocol's command-line commands are atomic. In the service a command may also check before a challenge is begun and write while its calls are awaited; such late writes into a running delivery are no acts of the protocol, and a write that comes only after the challenge runs is not modelled.
- A handler reads the clock once, apart from the time a prompt was sent; later readings only set the update time of a row.
- Full-history theorems about the outbound and campaign tables are for runs without erasure of a sender; `Spending.EveryHourIsCapped` allows it. They start from any table: the outbound one within the caps, rows from before the category column included, the campaign one without rows from the future.
- `Service.GatekeeperService.RecoverIncompleteChallenge`: assumes a positive clock, as the stored times do. A prompt it sends again claims no slot, as in the program, so these letters are outside `Spending.EveryHourIsCapped`.
- `Service.GatekeeperService.HandleLocked`: requires the invariant that a challenged row has a deadline, which `ProtocolChallenge.RowsAlwaysConsistent` proves. An exception of the detector is caught there; one of a store statement other than the activating one is in the protocol only, where the holder may leave after any call.
- `Operator.ArtifactQueue.Drain`: the clock stands still and nothing is queued between two rounds; cancellation of the loop is not modelled.
- `Operator.ArtifactQueue.ScheduleOperatorArtifacts`: message numbers are natural numbers, so of the refused ones only zero can occur.
- `SessionCache.BoundedStringSession.GetInputEntity`: how the client library marks the numbers of users, groups and channels is a parameter; it is not part of this model.
- `Dialog.RestoreBringsBack`: the owner does not edit the dialog while it is archived, and nobody restores a dialog that was not archived.
