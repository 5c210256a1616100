# Campaign delivery and messaging model

A Dafny model of the parts of a WhatsApp collections backend whose correctness rests on a few guarded writes: the
delivery of bulk campaigns by concurrent workers, and the state machines around it for conversations, inbound
messages, presence, rate limiting and text extraction. `dafny verify dfyconfig.toml` checks everything.

Campaign delivery is modelled twice.

- **One action per database statement** (`SendProtocol.dfy`). Workers hold what they read earlier, jobs are
  redelivered, dispatchers work through old lists, and administrators, customers, webhooks and crashes act between any
  two statements. A run is any sequence of actions. `SendSafety`, `SendFinality`, `SendReach`, `SendPauses`,
  `SendRetries`, `SendBatches` and `EndToEnd` prove results about all runs, `SendWitnesses` shows how far they
  reach. Writes of a campaign's status by a refresh, a dispatch or a control call are a single action with any value,
  because they may derive from an old read; `SendReach` keeps track of the calls that have read and not written yet.
  `SendRefinement` proves that uninterrupted statements amount to the service calls below.
- **One step per service call** (`CampaignService.dfy`), except that a send is split at the provider call. Results about
  campaign status live here, since the status that a refresh or a dispatch writes back may be stale between
  statements. `CampaignInvariants`, `CampaignGuarantees`, `PhoneQuarantine` and `AutoPause` prove results about all runs
  (`AutoPauseWitness` has one that ends on a streak), `CampaignEffects` what each call achieves and what a halt means for
  the future, `CampaignCauses` and `RecipientCauses` exactly which call gives a campaign or a recipient each status.
  `CampaignStore.dfy` has the same calls as methods that update tables in place, each proved equal to its function.

The other files follow the source one by one: `CampaignEligibility`, `Preparation`, `CursorPaging`, `CampaignErrors`,
`SendRate` (with `DispatchClock`, the dispatcher over time), `ReadableText`, `Inbound`, `Conversations`, `Presence`,
`RateLimit`. Each pairs a class or methods in the source's form with a function that specifies them, and proves the
promises about that function. `Statuses` and `Collections` hold what several of them share. Conversations, like the
delivery, appear at two levels: statement by statement as far as inbound messages touch them (`InboundSpec`), and call
by call with assignees and history (`ConversationSpec`).

Where the code does less than one might expect, the model follows the code and says when it does:

- An aborted recording transaction may lead to a second accepted send (`LossesAllowRepeats`). An opt-out leaves rows in
  PROCESSING alone: `OptOutMissesInFlight` is a run, `LetsThroughExactly` says which rows get through. The retry bound
  needs the queue's unique job id (`StaleJobsExceedAttempts`).
- A resume may run a campaign on a streak of failures: `ResumedOnStreak` is a run, `NoStreakExactly` the condition.
- A batch delay shorter than the spacing breaks the rate (`ShorterDelayFailsInARun`).
- The word "disabled" in an error always blames the account (`DisabledAlwaysBlamesTheAccount`).
- A worker that dies between storing and counting loses a count for good (`LostStaysUncounted`), and a reassignment
  between the two statements of a count hits the archive: `CountedInTheArchive` is a run, `ArchiveIsReadExactly` the
  condition.
- A connection during the save of a last sighting leaves a wrong last event: `ReconnectDuringSave` is a run,
  `EventsRightExactly` the condition.
- Any interval of one window length may admit almost twice the limit (`BoundIsReached`).
- The cursor loop ends early when its cursor row is deleted between two pages, and skips a row when that one stops
  matching; `CoveredExactly` says which rows are lost.

## Model

| member | source | states |
|---|---|---|
| SendSafety.AtMostOnce | src/services/campaign-send.service.js:111-197 | Over every interleaving of workers, dispatchers, control calls, opt-outs, webhooks and crashes the provider accepts a recipient at most once, as long as accepted ids are recorded or lost with their worker |
| SendSafety.AcceptsBoundedByLosses | src/services/campaign-send.service.js:135-182 | The same without that condition: accepts never exceed one plus the accepted ids that were lost |
| SendSafety.ClaimIsExclusive | src/services/campaign-send.service.js:123-170 | Between its claim and its recording write a worker is the only holder of its row, and the row is PROCESSING or CANCELLED |
| SendSafety.ReachableIsSafe | src/services/campaign-send.service.js:111-197 | The protocol invariant (one holder per row, what each stage of a holder implies about the row, message and provider id written together) holds in every reachable state |
| SendSafety.WorkerStepKeeps | src/services/campaign-send.service.js:111-197 | Each statement of a worker keeps the protocol invariant, with every other worker at any stage on the same row |
| SendSafety.OutsideFootprint | src/services/campaign-send.service.js:116-121 | What everybody else may do to a row: move it out of PENDING or QUEUED, between the two, or overwrite the result of a send that has a provider id |
| SendSafety.StepKeepsIdentity | src/services/campaign-send.service.js:111-197 | No action removes a recipient row or gives it to another campaign or customer |
| SendWitnesses.LossesAllowRepeats | src/services/campaign-send.service.js:144-182 | The bound is attained: for every n below the attempts, n aborted recordings let one recipient be accepted n + 1 times |
| SendFinality.CancelIsFinal | src/services/campaign-control.service.js:65-76 | A row that a campaign cancel moved out of PENDING or QUEUED is never sent in any continuation, and stays CANCELLED if it had no provider id |
| SendFinality.OptOutIsFinal | src/services/customer-communication-preferences.service.js:42-45 | The same for an opt-out, in every campaign of the customer |
| SendFinality.TakenOutIsFinal | src/services/customer-communication-preferences.service.js:79-81 | The same for any actor that moves a waiting row to CANCELLED |
| SendFinality.OnlyInFlightSurvivesCancel | src/services/campaign-control.service.js:65-76 | A row that is sent after the cancel was held by a sending worker at the cancel instant, whatever stale workers and dispatchers do later |
| SendFinality.OnlyProcessingSurvivesCancel | src/services/campaign-control.service.js:65-76 | While ids are recorded, a row that is sent after the first cancel of its campaign was PROCESSING at that instant |
| SendFinality.CannotSendIsForever | src/services/campaign-send.service.js:123-127 | Once the guards exclude a row from sending, no continuation sends it |
| SendFinality.SettledIsForever | src/services/campaign-send.service.js:116-121 | A CANCELLED row that nobody holds and that has no provider id never changes again |
| SendReach.SendableExactly | src/services/campaign-send.service.js:111-197 | In every reachable state some continuation sends a row if and only if a worker is about to call the provider for it, or it waits without a provider id or is being sent by a worker while its campaign may come to run: from its status, or by a call that read it and has yet to write |
| SendReach.OnlyInFlightSurvivesOptOut | src/services/customer-communication-preferences.service.js:42-45 | A row of the customer that is sent after an opt-out was held by a sending worker at that instant, whatever runs before and after |
| SendReach.LetsThroughExactly | src/services/campaign-control.service.js:65-76 | An opt-out or a cancel lets through exactly the rows for which a worker was about to call the provider, and those being sent while the campaign may come to run, for a cancel only by a call that read the campaign before: such a row is accepted in some continuation, any other in none |
| SendPauses.HaltStopsExactly | src/services/campaign-send.service.js:129-133 | While RUNNING is not written to a campaign that does not run, statement by statement: a recipient is called in some continuation if and only if a worker is about to call it, and then exactly once |
| SendRetries.CallsBoundedByAttempts | src/services/campaign-send.service.js:123-185 | With one live job per recipient, at most `attempts` provider calls are made for a row in any run, and never more than its attempt count, which pauses also raise |
| SendRetries.LastFailureIsFinal | src/services/campaign-send.service.js:174-185 | A failure that is permanent or uses up the attempts, of a row without a recorded id, leaves it FAILED and uncalled in every continuation |
| SendRetries.GivenUpIsForever | src/services/campaign-send.service.js:115-116 | A FAILED row without a provider id and without a live job never changes again |
| SendWitnesses.StaleJobsExceedAttempts | src/queues/campaign.queue.js:55-64 | Without the unique job id there is no bound: n jobs that read the row before its first attempt make n calls, for every n and every number of attempts above one |
| SendBatches.InFlightBounded | src/services/campaign-dispatcher.service.js:43-75 | QUEUED plus PROCESSING of a campaign never exceeds its batch size, nor the administrator's maximum, with workers, control calls and webhooks acting between any two iterations of the loop |
| SendBatches.NothingElseTakesOff | src/services/campaign-dispatcher.service.js:66-75 | No action but the dispatcher's write brings a row into flight |
| EndToEnd.OneMessagePerCustomer | src/services/message.service.js:1245-1357 | From preparation to delivery: two rows of a campaign for one customer that the provider accepted are the same row, and it was accepted once |
| SendRefinement.ClaimAgrees | src/services/campaign-send.service.js:111-133 | The two models agree: the statements of an uninterrupted job up to the provider call make of the row what the service-level claim makes of it, and reach the call exactly when it does |
| SendRefinement.FinishAgrees | src/services/campaign-send.service.js:135-185 | So do its statements from the call on, whether the call is refused, recorded, or recorded with a failing refresh |
| SendRefinement.OthersAgree | src/services/campaign-control.service.js:54-76 | So do a cancel, an opt-out and the recipient writes of a resume |
| SendRefinement.NotificationAgrees | src/services/webhook.service.js:839-861 | So does a status notification |
| SendRefinement.DispatchAgrees | src/services/campaign-dispatcher.service.js:66-75 | So does a dispatch: the loop's write on a row that it selects and the queue takes, nothing on any other |
| SendBatches.InFlightReached | src/services/campaign-dispatcher.service.js:48-75 | That bound is reached, for all batch sizes and maxima that let a batch have a recipient |
| CampaignEligibility.EvaluateCampaignEligibility | src/services/campaign-eligibility.service.js:17-75 | There is no evaluation exactly when the template is missing, since reading its name throws; else the reasons pushed are exactly those of the rules that speak against the recipient, each once and in rule order, and the recipient is eligible exactly when there is none |
| CampaignEligibility.EligibleExactly | src/services/campaign-eligibility.service.js:17-75 | Eligibility is the absence of every reason |
| CampaignEligibility.SharedTests | src/services/campaign-eligibility.service.js:17-34 | A number has at least six digits, the suppression list is asked about every number that is not empty, and a message exactly at the start of the cooldown still counts |
| CampaignEligibility.RulesInOrder | src/services/campaign-eligibility.service.js:17-75 | The order in which the rules push their reasons |
| Preparation.Preparer.PrepareBatch | src/services/message.service.js:1245-1310 | One batch upserts one row per chosen debt, in order, with the duplicate rule fed by the customers seen before, and counts each row once |
| Preparation.Preparer.ProcessCampaignPreparation | src/services/message.service.js:1312-1380 | A run over all batches, with a fresh set of seen customers, ends SCHEDULED exactly when a row may be sent, else FAILED |
| Preparation.PreparationSendsOncePerCustomer | src/services/message.service.js:1258-1268 | Across all batches and debts at most one row per customer is PENDING |
| Preparation.PendingExactlyFirstEligible | src/services/message.service.js:1258-1268 | With distinct debts, a row is PENDING if and only if it is its customer's first and no rule speaks against it |
| Preparation.AllItemsAre | src/services/message.service.js:1245-1262 | The prepared debts are the active ones of the customers of all batches that are not excluded, and among the chosen ones if any are |
| Preparation.BatchesCompose | src/services/message.service.js:1348-1357 | Preparing two batches one after the other is preparing their concatenation, so batch boundaries do not matter |
| Preparation.RetriedPreparationAgrees | src/services/message.service.js:1312-1357 | A run that stopped anywhere and is retried over unchanged data ends with the same rows |
| Preparation.BlockedPhoneLeavesNothingPending | src/services/campaign-eligibility.service.js:36-40 | On a blocked phone no prepared row is PENDING |
| CursorPaging.IterateAllMatching | src/services/message.service.js:987-1014 | The cursor loop terminates and yields exactly the ordered matching list |
| CursorPaging.IterateAllMatchingChunks | src/services/message.service.js:1040-1057 | The chunks concatenate to that list, every chunk but the last is full, and none is empty |
| CursorPaging.RegroupingIsUnique | src/services/message.service.js:1040-1057 | Those conditions determine the chunks |
| CursorPaging.CoveredExactly | src/services/message.service.js:987-1014 | While rows come, go, start and stop matching between the pages, a finished loop has yielded a row that matched all the time if and only if, up to the page that holds it, the row of every cursor still matched when the next page was read, or existed and was not directly followed by the row, which is then skipped in its place |
| CursorPaging.DrainKeepsOrder | src/services/message.service.js:987-1014 | Whatever happens to the rows between the pages, they are yielded in order and none twice |
| CursorPaging.GrowingDataIsCovered | src/services/message.service.js:987-1014 | While rows are only added that condition holds: no row is yielded twice, and when the loop ends every row present at its start was yielded |
| CursorPaging.IterateExplicitChunks | src/services/message.service.js:1016-1038 | An error is raised if and only if a chosen id is not accessible, in place of the first slice that holds such an id; the slices before it are delivered exactly |
| CursorPaging.UniqueIds | src/services/message.service.js:728-730 | `uniqueCustomerIds` keeps each non-empty id once |
| CursorPaging.BeforeIsAnOrder | src/services/message.service.js:996-999 | The pages are read in a strict order of all rows, newest first |
| CampaignErrors.EarlyDelaysGrow | src/services/campaign-error.service.js:38-42 | Without an instruction from the provider each of the first nine attempts waits longer than the one before, whatever the random parts |
| CampaignErrors.CappedFromNine | src/services/campaign-error.service.js:40 | The cap of thirty minutes decides exactly from the ninth attempt on |
| CampaignErrors.Doubles | src/services/campaign-error.service.js:38-42 | The delay is ten seconds at first and doubles up to half an hour; the random part is below a fifth of it, its lower bound of a second never decides |
| CampaignErrors.DelayBounds | src/services/campaign-error.service.js:38-42 | A delay is the provider's own or lies between ten seconds and thirty-six minutes |
| CampaignErrors.CodesDecide | src/services/campaign-error.service.js:1-5 | Without words and without a client error status, exactly the listed provider codes have each category, whatever the order of the tests |
| CampaignErrors.WordsDecide | src/services/campaign-error.service.js:26-28 | Without code and client error status the words decide, authentication before the account and the account before the template |
| CampaignErrors.StatusDecides | src/services/campaign-error.service.js:24-30 | Of client errors only 429 and the rate codes are tried again |
| SendRate.RateIsHighest | src/services/campaign-dispatcher.service.js:64 | The rate is the highest that neither the campaign's own nor the maximum exceeds, and 1 if there is none |
| SendRate.Spacing | src/services/campaign-dispatcher.service.js:64-65 | The spacing is the smallest whole number of milliseconds with `rate` spacings in a minute |
| SendRate.AddJobs | src/services/campaign-dispatcher.service.js:66-68 | The loop's due times are at least one spacing apart and not before the delay, whichever enqueues throw |
| SendRate.SpacedMinute | src/services/campaign-dispatcher.service.js:64-68 | No half-open minute holds more than `rate` times that are one spacing apart |
| SendRate.RateHolds | src/services/campaign-dispatcher.service.js:56-68 | Over all batches of a campaign no half-open minute holds more than `rate` due times of recorded sends, when the batch delay is at least the spacing and each pass sees the sends of the batches before it |
| DispatchClock.RateOfEveryRun | src/services/campaign-dispatcher.service.js:43-68 | In every run of passes, sends, records and notifications each pass does see them, because it opens only when nothing is in flight; so the rate holds in every run |
| DispatchClock.RateOfEveryBatch | src/services/campaign-dispatcher.service.js:56-68 | In every such run, whatever the batch delay, one batch alone has at most `rate` due times in a half-open minute, recorded or not |
| SendRate.ShorterDelayFails | src/services/campaign-dispatcher.service.js:59-61 | With any shorter batch delay some history puts rate + 1 of them into a minute, so the condition is exact |
| DispatchClock.ShorterDelayFailsInARun | src/services/campaign-dispatcher.service.js:43-68 | That history is a run of the dispatcher from its start |
| CampaignInvariants.OneOpenCampaignPerPhone | src/services/campaign-dispatcher.service.js:32-41 | In every reachable state, of two RUNNING campaigns on one phone at most one has PENDING, QUEUED or PROCESSING recipients |
| CampaignInvariants.ReachableIsGood | src/services/campaign-control.service.js:34-63 | The invariant that relates status, start time, rows and jobs of all campaigns holds in every reachable state |
| CampaignInvariants.StepKeeps | src/services/campaign-control.service.js:24-63 | Each service call keeps that invariant |
| CampaignInvariants.DispatchHasNoRival | src/services/campaign-dispatcher.service.js:32-41 | A campaign that passes the competitor check has no open running rival on its phone |
| CampaignInvariants.ReopenedIsDispatched | src/services/campaign-control.service.js:54-63 | A resumed campaign that never started and has rows to send is dispatched, and so started, in the same call, although resume does not set the start time |
| CampaignGuarantees.ClosedStaysClosed | src/services/campaign-send.service.js:116-133 | A recipient that left PENDING, QUEUED and PROCESSING never returns to them, in any run |
| CampaignGuarantees.CompletedIsFinal | src/services/campaign-send.service.js:116-133 | After COMPLETED, in every continuation: the campaign stays COMPLETED, all its recipients are terminal, none is being sent, and no job claims one |
| CampaignGuarantees.FinalIsFinal | src/services/campaign-control.service.js:34-76 | A campaign that is COMPLETED, FAILED or CANCELLED keeps that status in every continuation |
| CampaignGuarantees.RefreshCompletesWhenQuiet | src/services/campaign-send.service.js:27-32 | A count refresh completes a campaign exactly when it is active and nothing of it is open |
| CampaignGuarantees.CountsAddUp | src/services/campaign-send.service.js:22-25 | The nine status counts add up to the recipients of the campaign |
| CampaignGuarantees.StoredCountsAreComplete | src/services/campaign-send.service.js:33-47 | The stored counts after a refresh, with those of PROCESSING and CANCELLED, make up the whole campaign |
| PhoneQuarantine.QuarantineHolds | src/services/campaign-send.service.js:63-81 | From an authentication or permanent account failure, before or after the commit of the send, until an administrator makes the phone safe: nothing on it is SCHEDULED or RUNNING, none can be started or resumed, preparations end FAILED, and no job reaches the provider call |
| PhoneQuarantine.PrepareOnBlockedPhoneFails | src/services/message.service.js:1359-1370 | A campaign prepared on an unsafe phone ends FAILED with no eligible recipient |
| PhoneQuarantine.RunKeepsSafe | src/controllers/settings.controller.js:57-70 | In every run campaigns are active only on safe phones |
| AutoPause.NoStreakExactly | src/services/campaign-send.service.js:83-103 | At every moment of a run no RUNNING campaign has its K newest attempted recipients all FAILED, for the K of that moment, if and only if no start, resume or dispatch of the run launches a campaign that is on a streak and no new setting makes the newest failures of a RUNNING campaign one |
| AutoPause.NoRunningCampaignOnStreak | src/services/campaign-send.service.js:83-103 | In particular in every run without resumes that keeps a positive K |
| AutoPauseWitness.ResumedOnStreak | src/services/campaign-control.service.js:54-63 | A run from the empty state, in every environment with K = 1, that ends with a RUNNING campaign on a streak |
| AutoPause.FailedSendIsJudged | src/services/campaign-send.service.js:183-193 | After a send that failed for good, before or after its commit, its campaign does not run or the pause rule is silent about the new state |
| AutoPause.FailedNotificationIsJudged | src/services/webhook.service.js:863-877 | The same for a failure that a status notification reports |
| AutoPause.RateTest | src/services/campaign-send.service.js:11-20 | Without a streak the rule pauses exactly when the sample is large enough and failed * 100 >= percent * sampled; an empty sample has the rate 0 |
| AutoPause.RuleSpeaksExactly | src/services/campaign-send.service.js:83-103 | The pause rule speaks exactly if the K newest results all failed, or enough recipients are SENT, DELIVERED, READ, FAILED, SKIPPED or CANCELLED and the share of the FAILED ones reaches the limit |
| AutoPause.StreakIs | src/services/campaign-send.service.js:88-92 | A streak is K FAILED recipients at the front of those with a result, newest update first |
| AutoPause.ResumeKeepsStreak | src/services/campaign-control.service.js:54-63 | A resumed campaign runs on a streak exactly when it was paused on one |
| CampaignEffects.HaltHolds | src/services/campaign-control.service.js:46-52 | A campaign that is PAUSED, COMPLETED, FAILED or CANCELLED does not run again in any continuation until it is resumed, and no further provider call for one of its recipients begins |
| CampaignEffects.PauseHolds | src/services/campaign-control.service.js:46-52 | After a pause, in every continuation without a resume of the campaign, it does not run and no provider call for its recipients begins that was not under way |
| CampaignEffects.CancelHolds | src/services/campaign-control.service.js:65-76 | After a cancel, in every continuation, the campaign is CANCELLED, the recipients it took out never open again, and no provider call for its recipients begins that was not under way |
| CampaignEffects.OptOutHolds | src/services/customer-communication-preferences.service.js:42-45 | After an opt-out, in every continuation, a recipient that it took out never opens again and is never sent |
| CampaignEffects.ClaimExactly | src/services/campaign-send.service.js:115-133 | A job reaches the provider call exactly when its row is QUEUED without a provider id and its campaign runs; the row is then PROCESSING with one attempt more, and no other row changes |
| CampaignEffects.CaughtRow | src/services/campaign-send.service.js:174-185 | A row whose send ends in the catch block, before or after the commit, is QUEUED again, for later, exactly when the error may be retried and attempts are left, and FAILED otherwise |
| CampaignEffects.DispatchExactly | src/services/campaign-dispatcher.service.js:48-76 | A dispatch queues exactly the selected rows that the queue takes, sets RUNNING and a first start time, and touches nothing else |
| CampaignEffects.SelectedAreOldest | src/services/campaign-dispatcher.service.js:48-53 | The selection is the oldest due rows, as many as there are up to the batch size |
| CampaignEffects.DispatchAnswers | src/services/campaign-dispatcher.service.js:27-54 | A dispatch passes exactly for a SCHEDULED or RUNNING campaign without a running competitor that started no later, with nothing QUEUED or PROCESSING, and with something due |
| CampaignEffects.AllDueAreSelected | src/services/campaign-dispatcher.service.js:48-53 | If the due recipients fit into a batch, exactly they are selected |
| BatchLimits.BatchSizeIsLargest | src/services/campaign-dispatcher.service.js:47 | The batch size is the largest that neither the campaign's own, or the default without one, nor the maximum exceeds |
| CampaignEffects.StartRuns | src/services/campaign-control.service.js:34-44 | A start that is not refused leaves the campaign RUNNING with a start time, on a safe phone without another active campaign |
| CampaignEffects.StartAndResumeAnswers | src/services/campaign-control.service.js:16-63 | A start is accepted exactly from DRAFT, READY and SCHEDULED, a resume exactly from PAUSED, of a campaign with a usable template, an eligible recipient, a safe phone without another active campaign, and rate, batch size and delay within the limits; the other answers tell what is wrong |
| CampaignEffects.CancelAnswers | src/services/campaign-control.service.js:65-67 | A cancel is accepted exactly of a known campaign that is not COMPLETED, FAILED or CANCELLED |
| CampaignCauses.StatusChangesExactly | src/services/campaign-send.service.js:53-103 | Exactly which calls give a campaign each status: PAUSED by an administrator, an account failure or an unsafe phone, a template failure, or the pause rule; COMPLETED by a count when it is active, not paused by the call, and nothing is open; RUNNING by an accepted start, resume or dispatch; CANCELLED by a cancel; SCHEDULED or FAILED by its preparation |
| CampaignCauses.FieldsChangeExactly | src/services/campaign-send.service.js:33-51 | Exactly which calls store counts, and each of the seven is then the number of recipients with its status; when the start time is set; the eligible count is the number of PENDING rows that the preparation leaves; phone and limits stay |
| CampaignCauses.TemplateFailureStops | src/services/campaign-send.service.js:186-192 | A send that fails for good because of its template, before or after its commit, stops its campaign whatever the pause rule says |
| CampaignCauses.OtherFailuresKeep | src/services/campaign-send.service.js:186-193 | One that fails for good because of its recipient or after retries changes no campaign's status when the pause rule is silent and something is open |
| CampaignCauses.PhoneChangesExactly | src/services/campaign-send.service.js:63-81 | A phone changes only by an account failure on it, which disables and restricts it, and by an administrator |
| CampaignCauses.CreatedIs | src/services/message.service.js:1431-1455 | A new campaign is QUEUED with the phone and the limits that it was created with |
| CampaignCauses.PreparedAre | src/services/message.service.js:1270-1298 | A preparation adds one recipient for each prepared debt, of its customer, PENDING or SKIPPED as evaluated on the stored phone, without attempts |
| RecipientCauses.StatusChangesExactly | src/services/campaign-send.service.js:111-197 | Exactly which calls give a recipient each status, so a job of a paused campaign puts a QUEUED row back to PENDING, and only one of a cancelled campaign marks it CANCELLED |
| RecipientCauses.FieldsChangeExactly | src/services/campaign-send.service.js:123-185 | Exactly when a recipient's attempts, waiting time, provider id and message change, and to what |
| RecipientCauses.SendingChangesExactly | src/services/campaign-send.service.js:123-197 | A provider call is under way from the claim that reaches it until its end or the death of its worker |
| RecipientCauses.MessagesChangeExactly | src/services/campaign-send.service.js:149-168 | A message is stored only by a recording, for its recipient's campaign and with the provider's id |
| RecipientCauses.CancelledWasAsked | src/services/campaign-send.service.js:115-119 | In every run a recipient is CANCELLED only if its campaign was cancelled or its customer opted out in the run |
| RecipientCauses.ResultsAreRecorded | src/services/webhook.service.js:839-861 | In every run a recipient is SENT, DELIVERED or READ only with a message, which is stored for its campaign and is no other recipient's, so a notification finds at most one |
| CampaignInvariants.InsertedInOrder | src/services/message.service.js:1293-1298 | The rows of a preparation come in the order in which the items bring them, each once |
| CampaignStore.Store.ProcessUntilCall | src/services/campaign-send.service.js:111-133 | The statements before the provider call, of which the last may undo the claim, amount to one claim step |
| CampaignStore.Store.HandleFailure | src/services/campaign-send.service.js:174-197 | The catch block requeues with a delay or fails the row and runs the pause that its category asks for |
| CampaignStore.Store.ProcessAnswer | src/services/campaign-send.service.js:135-197 | Recording, and the catch block also after a commit whose bookkeeping threw |
| CampaignStore.Store.RefreshCampaignRecipientCounts | src/services/campaign-send.service.js:22-51 | The refresh writes the status it derived and the seven counts |
| CampaignStore.Store.EvaluatePause | src/services/campaign-send.service.js:83-103 | The automatic pause acts only on a RUNNING campaign and for a reason of the rule |
| CampaignStore.Store.PausePhoneCampaigns | src/services/campaign-send.service.js:63-81 | All active campaigns of the phone are paused and the phone is restricted and disabled |
| CampaignStore.Store.DispatchCampaign | src/services/campaign-dispatcher.service.js:27-80 | The checks in order, then the loop, then the write of RUNNING with the start time read before the loop |
| CampaignStore.Store.QueueRecipients | src/services/campaign-dispatcher.service.js:66-75 | The loop moves exactly the selected rows that are still PENDING and whose enqueue succeeds |
| CampaignStore.Store.DispatchActiveCampaigns | src/services/campaign-dispatcher.service.js:84-96 | The loop with its set of selected phones dispatches the first campaign of each phone, in order |
| CampaignStore.OneCampaignPerPhone | src/services/campaign-dispatcher.service.js:84-96 | That is exactly one campaign for each phone of the list |
| CampaignStore.PicksFollowTheList | src/services/campaign-dispatcher.service.js:84-96 | They are dispatched in the order of the list: what is picked from a part of it comes first |
| CampaignStore.PassKeepsGood | src/services/campaign-dispatcher.service.js:84-96 | A whole pass keeps the invariant of the reachable states |
| CampaignStore.Store.AssertStartable | src/services/campaign-control.service.js:16-32 | The refusals in their order, with the phone's row created on the way |
| CampaignStore.Store.StartCampaign | src/services/campaign-control.service.js:34-44 | Start, refused or done with the dispatch it calls |
| CampaignStore.Store.PauseCampaign | src/services/campaign-control.service.js:46-52 | Pause from SCHEDULED or RUNNING, else a conflict |
| CampaignStore.Store.ResumeCampaign | src/services/campaign-control.service.js:54-63 | Resume puts QUEUED rows back, sets RUNNING without a start time and dispatches |
| CampaignStore.Store.CancelCampaign | src/services/campaign-control.service.js:65-76 | Cancel takes all waiting rows out and refreshes the counts, unless the campaign is COMPLETED, FAILED or CANCELLED |
| CampaignStore.Store.ApplyOptOut | src/services/customer-communication-preferences.service.js:42-45 | All waiting rows of the customer are CANCELLED |
| CampaignStore.Store.ProcessStatus | src/services/webhook.service.js:839-877 | A known message's notification overwrites the status of its rows, judges failures and refreshes |
| CampaignStore.Store.UpdatePhoneSafety | src/controllers/settings.controller.js:57-70 | The named fields of the phone change, and an unsafe phone's active campaigns are paused |
| ReadableText.Extractor.ExtractReadableText | src/services/webhook.service.js:127-179 | The recursive search with its shared set terminates on every object graph and does what the search function says |
| ReadableText.SharingIsSafe | src/services/webhook.service.js:127-179 | On every graph, cycles included, the shared set never changes the answer of the simple search that only stops at the objects above it |
| ReadableText.ReadableTextIsReachable | src/services/webhook.service.js:127-179 | The result is null exactly when only blank strings can be reached through keys that are not skipped, and is otherwise the trimmed form of a reachable string |
| ReadableText.AcyclicSearchIsPlain | src/services/webhook.service.js:127-179 | On graphs without cycles, shared objects included, it is the plain recursion without any set |
| ReadableText.FirstReadableKeyWins | src/services/webhook.service.js:154-164 | In a record the text under a readable key wins over everything but the keys before it in the list |
| ReadableText.TrimCuts | src/services/webhook.service.js:62-69 | Trimming removes white space from both ends, leaves none there, and leaves nothing exactly of blank strings |
| ReadableText.ReadableKeysAreContent | src/services/webhook.service.js:83-125 | No readable key is skipped |
| ReadableText.SkippedExactly | src/services/webhook.service.js:107-125 | A key is skipped exactly if in lower case it is one of the listed ones or ends in "_id" |
| ReadableText.LookupFinds | src/services/webhook.service.js:154-164 | The value under a key is that of the first entry with it |
| InboundSpec.ExactlyOnce | src/services/webhook.service.js:520-803 | Without deaths, for any duplicated, reordered or concurrent deliveries, once no worker is at work the stored ids are exactly the delivered well-formed ids and each stored message was counted exactly once |
| InboundSpec.StoredAndCountedOnce | src/services/webhook.service.js:520-803 | The same with deaths: increments plus those lost between storing and counting are one per stored message, and ids are distinct at every moment |
| InboundSpec.LostStaysUncounted | src/services/webhook.service.js:668-719 | A message whose worker died between storing and counting is never counted, whatever is redelivered |
| InboundSpec.ArchiveIsReadExactly | src/services/conversation.service.js:274-291 | Archived conversations have nothing unread at every moment of a run if and only if no worker of the run counts its message in a conversation that is no longer its customer's active one; readers fetch a conversation and clear it later by its id |
| Inbound.WebhookService.ProcessInboundMessage | src/services/webhook.service.js:481-803 | One call, uninterrupted: malformed messages are ignored, known ids are duplicates, new ones are stored and counted in the sender's active conversation |
| Inbound.OneCall | src/services/webhook.service.js:481-803 | An uninterrupted call is the sequence of its five statements in the concurrent machine |
| Inbound.WebhookService.ProcessMessages | src/services/webhook.service.js:953-960 | The loop over a payload sorts every message into the ignored or the inbound list, and everything in the inbound list is stored |
| ConversationSpec.OneActiveConversation | src/services/conversation.service.js:173-200 | In every run a customer has at most one active conversation, it has the customer's assignee, and all others are archived with no key and nothing unread |
| ConversationSpec.UnreadIsSinceLastReset | src/services/conversation.service.js:274-291 | In every run the unread count is the number of inbound messages since the last call that reset it, and the assignee that of the last reassignment |
| ConversationSpec.StatusIsFromTheTrace | src/services/conversation.service.js:274-291 | In every run the status of a customer's conversation is the one that the last inbound message, status change, closing or reassignment has set: an inbound message reopens it |
| ConversationSpec.LastMessageIsLast | src/services/conversation.service.js:274-291 | In every run every conversation, archived ones included, names the last message that lies in it, and messages lie in conversations of their customer |
| ConversationSpec.UnseenIsKept | src/services/conversation.service.js:209-219 | A user sees all conversations or those of their employees, and one who does not see a conversation leaves its count and its status alone |
| ConversationSpec.HistoryReplays | src/services/conversation.service.js:338-500 | The assignment history is a chain: each record archives what the one before it activated and starts at its assignee, its archived rows say the same, and its replay gives the current assignee |
| ConversationSpec.ArchivedIsFinal | src/services/conversation.service.js:409-424 | An archived conversation never changes again |
| ConversationSpec.StepKeeps | src/services/conversation.service.js:173-500 | Each call keeps the invariant of the conversation rows |
| ConversationSpec.MarkReadTouches | src/services/conversation.service.js:653-687 | Reading clears the count exactly when the conversation is visible to the user, and touches no other customer |
| ConversationSpec.CloseTouches | src/services/customer.service.js:954-1021 | A status that forbids contact closes and clears the customer's conversation and touches no other |
| Conversations.ConversationService.EnsureConversationForCustomer | src/services/conversation.service.js:173-200 | The upsert by active key, with the customer's assignee written in both branches |
| Conversations.ConversationService.TouchConversationForMessage | src/services/conversation.service.js:274-291 | The touch of a message, which counts inbound ones and reopens |
| Conversations.ConversationService.ReassignCustomerConversation | src/services/conversation.service.js:338-513 | The transaction archives, opens, reassigns and records, or only ensures when the assignee is the same |
| Conversations.ConversationService.MarkConversationRead | src/services/conversation.service.js:653-687 | Done exactly for a known customer whose conversation the user sees |
| PresenceSpec.OnlineIsTheTrace | src/services/presence.service.js:30-33 | When timers run on time, being online is a function of the user's own connects, disconnects and logouts and the clock, computed without timers |
| PresenceSpec.NeverOfflineEarly | src/services/presence.service.js:203-224 | However late timers run, nobody who is online by that function is taken for offline |
| PresenceSpec.TimerIffNoSockets | src/services/presence.service.js:164-224 | A timer is pending for a user if and only if the user is tracked with an empty socket set, and it is the only one |
| PresenceSpec.GraceIsExact | src/services/presence.service.js:192-224 | After the last socket closes the user stays online for exactly 25 seconds of silence, whatever others do |
| PresenceSpec.OnlyGraceOrLogout | src/services/presence.service.js:97-118 | A user leaves the map only by a due timer without sockets or by the logout of the last socket |
| PresenceSpec.EventsRightExactly | src/services/presence.service.js:97-162 | In every run the newest event about every user is right whenever no last sighting of the user is being saved, if and only if no user's last such save ends while the user is online |
| PresenceSpec.ReconnectDuringSave | src/services/presence.service.js:97-118 | A run from the start that breaks it: connect, log out, connect again during the save |
| Presence.PresenceService.MarkSocketOnline | src/services/presence.service.js:120-162 | A connect cancels the timer and adds the socket, and announces a user who was not tracked |
| Presence.PresenceService.MarkSocketDisconnected | src/services/presence.service.js:164-224 | A disconnect removes the socket and starts the grace period anew when none is left |
| Presence.PresenceService.HandleSocketLogout | src/services/presence.service.js:226-286 | A logout removes the socket and takes the user offline at once when none is left |
| Presence.PresenceService.OnGraceElapsed | src/services/presence.service.js:203-221 | The callback takes the user offline; its branch for a reconnected user is unreachable |
| Presence.PresenceService.TickClock | src/services/presence.service.js:203-224 | All due timers run, in any order, with one result |
| RateLimitSpec.IntervalHoldsTwice | src/middleware/rateLimit.middleware.js:75-98 | Every interval of one window length holds at most 2 * limit - 1 admitted requests of a key, whatever other keys share the store |
| RateLimitSpec.BoundIsReached | src/middleware/rateLimit.middleware.js:75-98 | That bound is reached for every limit and every window of two milliseconds or more |
| RateLimitSpec.WindowHoldsLimit | src/middleware/rateLimit.middleware.js:75-98 | Each fixed window that a key ever has in a trace holds at most `limit` of the requests that the whole trace admits |
| RateLimitSpec.WaitingPays | src/middleware/rateLimit.middleware.js:93-97 | A caller who waits the announced time finds an expired window and is admitted, whatever came in between |
| RateLimitSpec.ZeroLimit | src/middleware/rateLimit.middleware.js:160 | A limit of zero admits nothing |
| RateLimit.Limiter.IncrementMemory | src/middleware/rateLimit.middleware.js:75-98 | The counter of one key is renewed when expired and else raised; no other key changes |
| RateLimit.Limiter.Admit | src/middleware/rateLimit.middleware.js:146-173 | Admission, the remaining number, and a Retry-After of the fewest whole seconds that are long enough, at least one |
| RateLimit.Limiter.Serve | src/middleware/rateLimit.middleware.js:134-182 | A whole trace: the decisions are those of the store that the requests before left behind |

## Left out

- AtMostOnce: assumes that every accepted call is recorded with an id or its worker dies first; `AcceptsBoundedByLosses` says what holds without that.
- OnlyProcessingSurvivesCancel: makes the same assumption for the run before the cancel; `OnlyInFlightSurvivesCancel` does without.
- InFlightBounded: assumes one live job per recipient, that the dispatch lock outlives each pass, and that no count refresh throws after a send.
- CallsBoundedByAttempts: assumes one live job per recipient, which the queue's job id gives; `StaleJobsExceedAttempts` shows that it is needed.
- SendableExactly: the continuation that sends needs what the machine leaves open: that the checks of a start, a resume or a dispatch pass (template, phone, settings, competitor, nothing else in flight) and that the queue delivers a job for the row. The other half needs none of it.
- LetsThroughExactly: likewise.
- NoStreakExactly: is about service calls as single steps; a RUNNING written back by a dispatch that read the campaign before its pause is outside.
- NoRunningCampaignOnStreak: likewise.
- OneActiveConversation: is about calls as single steps. A touch that fetched a conversation before its reassignment counts in the archive, as `CountedInTheArchive` shows.
- ArchivedIsFinal: likewise.
- UnreadIsSinceLastReset: likewise; `StoredAndCountedOnce` and `ArchiveIsReadExactly` say what holds statement by statement.
- HistoryReplays: is about calls as single steps too, but the assignment history is written only inside the transaction of a reassignment.
- ArchiveIsReadExactly: has no step for a closing of the contact, which to the counts is a reader whose two statements follow each other, nor for a reader that is refused after its first.
- RateHolds: is about due times of recorded sends of one campaign whose batches follow each other.
- RateOfEveryRun: excludes resumes, after which jobs that still wait keep their old due times.
- OneOpenCampaignPerPhone: is about service calls as single steps; a status written back from an old read can break it in between.
- HaltHolds: likewise; a pause that lands inside a dispatch is overwritten by the RUNNING that the dispatch writes at its end, and `HaltStopsExactly` says what holds statement by statement.
- PauseHolds: the same.
- CompletedIsFinal: likewise; a refresh or a dispatch that read the campaign before its completion can write its old status back.
- FinalIsFinal: the same.
- CancelHolds: the same for the status; `CancelIsFinal` says what holds of its rows statement by statement.
- QuarantineHolds: is about service calls as single steps; a job that waits for the provider's answer when the phone is disabled still gets it.
- Redis, BullMQ and Socket.IO: jobs are a worker's steps or a set of rows, the lock is a token that outlives a pass, and nothing is said about liveness or redelivery.
- Preparation that overlaps with a cancel, a dispatch or a phone change: a run is one step. An error of the chunk iterator in the middle of a run, which ends FAILED with the rows so far, is left out.
- Campaigns without a phone number id, which fall back to the configured phone in some reads and not in others.
- Fields that no decision reads: audit records, alerts, reasons, error texts, timestamps other than the start time and the next attempt, quality status.
- Settings that are negative or not whole numbers, which the administrator's form does not refuse.
- Equal update times: `latest` orders rows strictly, and an update of several rows keeps their order.
- Role and permission checks, except who sees a conversation; request parsing; the template lookup, which is a parameter.
- Template rendering: the reasons of the base evaluation are an arbitrary list.
- Opt-out phrases and the choice of the inbound sender's customer: parameters of the steps.
- Conversation priority, tags, titles and the texts of system messages.
- The timestamps and database fallback of `lastSeenAt`.
- The Redis counters of the rate limiter and its fallback rule.
- Lower-casing of error messages, which the classification takes as given; for keys only ASCII letters matter.
- Legacy message-based campaign progress, phone and range-header helpers, import summaries, listing and formatting.
