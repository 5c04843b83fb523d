# Verified model of the phone daemon's durable protocols

The phone daemon and its gateway plugin keep promises across crashes, retries and late
replies: a call is placed at the time that was last agreed, a result is reported once, what a
caller said is noted once, audio is played in order or not at all. This project models the
code behind those promises in Dafny and proves them for every run.

* **Phone workflows** (`Workflow*.dfy`, `Operation*.dfy`, `CallingHours.dfy`). Requests, attempts,
  retries, reschedules, cancellations and recipient-requested callbacks, beside a table of native
  jobs that other code fires. Transactions on the saved rows are functions in `WorkflowRows`; the
  code that performs them is `WorkflowStore`; `WorkflowSchedule` interleaves publishing, moves,
  admission, restart reconciliation and crashes. `WorkflowGrounds` and `WorkflowDecisions` say what
  a decision rests on. `WorkflowOperations` puts reschedules and the restart reconciliations that
  end them under operation identities; `OperationTheorems` says what that promises.
  `WorkflowHazards`, `WorkflowOverlaps` and `OperationOverlap` study the overlaps that break
  promises.
* **Phone tasks** (`PhoneTasks.dfy`, `Task*.dfy`). Submission, late admission, stopping,
  corrections, refreshes and result delivery of several gateways that share one slot table.
* **Call memory** (`CallerNotes.dfy`, `Closeout*.dfy`, `MemoryCapture.dfy`, `Capture*.dfy`,
  `NoteMerge*.dfy`, `NoteAppend*.dfy`, with the size of escaped JSON from `JsonSize.dfy`). A client
  that resends batches over a lossy network, a server that records each event once, seals, and
  merges the facts into notes that others write too; the editing algorithm that decides which lines
  a merge may touch (`NoteMerge`), and the loop that writes the remaining facts (`NoteAppend`).
* **Audio** (`Playback*.dfy`, `InputPipeline.dfy`). The playback queue with its epochs, the writer
  with its prebuffer, and the caller's audio on its way to the model.
* **Owner lookup** (`OwnerLookup.dfy`, `OwnerPages.dfy`). Pages of bounded JSON size, a binary
  search for the longest slice that fits, and the cursors between pages.

The transactions are functions on rows; `*Meaning.dfy` states of each of them, on fields and
constants, when it happens and what it writes, and the methods of the classes are proved against
the same functions.

One locked database block is one transaction. Code between two awaits is one step. A crash may
fall between any two steps, and it forgets everything that is not in a table. Times are whole
seconds, identifiers that the source draws at random are fresh, and hashes are the values that
are hashed. What a language model, a remote server or a clock answers is an arbitrary value.

## Where the code does less than one might expect

Some natural claims turned out to be false of the code. The model keeps the code as it is,
shows a run in which the claim fails, and proves exactly when it holds.

* *A scheduled request has its job at the scheduled time.* Four overlaps break this. Rows without
  one of them stay aligned in every run, and no row ever admits a call for a superseded time
  (`WorkflowTheorems.ScheduleStaysAligned`, `NoSupersededAdmission`). For each overlap
  `WorkflowHazards` says of the machine's own steps, in every state that the invariant allows,
  exactly when the row is aligned afterwards, and a run shows the harm: a reschedule that listed the
  jobs before the call job was linked (`BlindFinishExactly`, `BlindRescheduleHappens`); a publisher
  that links the job of an earlier attempt (`StaleLinkExactly`,
  `WorkflowOverlaps.StaleLinkHappens`); a publisher that arms a row over an unresolved move
  (`PublishOverMoveExactly`, `WorkflowOverlaps.PublishOverMoveHappens`); and a restart
  reconciliation that acts on a row it read earlier, which may move the call job or only the
  reminder, as a whole or cut off by a crash after any of its jobs (`StaleReconcileExactly`,
  `CutReconcileExactly`, `StaleReconcileHappens`, `WorkflowOverlaps.LateReconcileMovesReminder`).
* *An operation is carried out once, and its saved result stays.* A restart reconciliation does not
  check that the change which it read is still what the row is waiting for. Without one that acts on
  such an old copy, an operation writes its target at most once, by its own call or by recovery, and
  its result stays (`OperationTheorems.OperationRunsOnce`, `RepeatIsAnswered`,
  `RecoveryAnswersRepeats`). The first reconciliation breaks this if and only if its copy is not the
  pending change of the row (`StaleFinishBreaksExactly`); in one run an operation is carried out a
  second time, in the place of another one, and its saved result is overwritten
  (`OperationOverlap.OvertakenOperation`).
* *An active task holds its slot.* A refresh releases the slot before it saves the end of the run.
  An active task loses its slot if and only if such a refresh is cut off in between
  (`TaskTheorems.SlotLostExactly`); another gateway may then take it and the limit is exceeded
  (`LimitCanBeExceeded`).
* *Acknowledged events stay recorded, and a final closeout keeps its status.* The recovery worker
  writes back a row that it read earlier, as expired, and so forgets what was recorded since or
  overrules a result that was saved since (`CloseoutTheorems.RecordLostExactly`,
  `FinalStatusChangesExactly`, `CaptureTheorems.AcknowledgedCanBeLost`).
* *A captured event is eventually accepted.* The client bounds a batch in characters, the server
  bounds its escaped JSON. A batch of valid events is accepted if and only if that size is within
  100000 (`MemoryCapture.PostedAcceptedExactly`); once the batch at the head of the queue is over
  it, nothing is acknowledged any more until the client restarts
  (`CaptureBlocked.NeverAcknowledged`), and if only the recent context takes it over the bound, not
  before something more is heard (`SilentAndRefused`). Two events of nine thousand Greek letters are
  enough, though each alone would pass (`TwoGreekEvents`, `CaptureBlocked.TwoGreekEventsBlock`).
* *A page of a lookup fits the response budget.* The size test comes before the completion marks and
  the cursor are filled in. A page exceeds the budget exactly when the room left by the test is
  smaller than these (`OwnerPages.PageExceedsExactly`); a page that cuts a record always does
  (`CutPageExceeds`), and one note of 12000 letters gives such a page (`LongNoteExceeds`).
* *A record that was cut in two is finished on the next page, or its change is noticed.* When the
  list has become too short the next page is empty instead, and exactly then
  (`OwnerPages.ChangedRecordIsNoticed`, which also says when it is refused); a run shows it
  (`CutRecordCanVanish`).

## Model

| member | source | states |
|---|---|---|
| CallingHours.RetryTime | src/hfp_mcp/phone_workflows.py:187-203 | the retry instant or refusal equals the specification by the first instant within calling hours |
| CallingHours.NextAllowed | src/hfp_mcp/phone_workflows.py:194-200 | the result is the least instant from the requested one on whose local time is between 08:00 and 22:00 |
| CallingHours.RefusedExactlyWhen | src/hfp_mcp/phone_workflows.py:187-203 | a time is refused if and only if it is past, or less than two minutes ahead for an automatic retry of the first schema, or, asked for by a person, not before the deadline, or, automatic, when no instant at which the local clock shows 08:00 to 22:00 is left from it on before the deadline |
| CallingHours.AcceptedIsEarliestAndStable | src/hfp_mcp/phone_workflows.py:187-203 | a time asked for by a person is accepted as it is, an automatic one becomes the least instant by day from it on; either lies before the deadline and is accepted unchanged when passed back |
| WorkflowStore.Store.BeginOperation | src/hfp_mcp/phone_workflows.py:169-180 | an operation identity runs once; a repeat gets the saved result, an unresolved or different one is refused, nothing else changes |
| WorkflowStore.Store.CreateRow | src/hfp_mcp/phone_workflows.py:65-107 | a known key with equal terms returns its row, with other terms conflicts; a new row gets the terms, the root and the earlier of a week and the given deadline |
| WorkflowStore.Store.ClaimAttempt | src/hfp_mcp/phone_workflows.py:138-159 | a known execution gets its attempt again; otherwise a new attempt exactly for the linked job, at the current call time, of a scheduled row before its deadline |
| WorkflowStore.Store.Guide | src/hfp_mcp/phone_workflows.py:1039-1050 | an undecided attempt, or a holding row, is handed to the owner and a row that is not final becomes uncertain |
| WorkflowStore.Store.DecideRoutine | src/hfp_mcp/phone_workflows.py:1052-1115 | the programmed verdict on row and root in one commit, or none when a model decision is needed |
| WorkflowStore.Store.ApplyModelDecision | src/hfp_mcp/phone_workflows.py:705-772 | the decision of the model within its authority, or a refusal that changes nothing |
| WorkflowStore.Store.ExpireRequests | src/hfp_mcp/phone_workflows.py:811-817 | exactly the rows past their deadline that are neither final nor firing become expired |
| WorkflowStore.Store.CancelChain | src/hfp_mcp/phone_workflows.py:573-604 | the request and every peer of its chain that the live routing authorizes become cancelled, all others stay; without authority for the request itself nothing changes |
| WorkflowStore.CancelReachesTheChain | src/hfp_mcp/phone_workflows.py:573-604 | after a cancel a row is cancelled if and only if it was, or is the request, or belongs to its chain and is authorized; nothing but status and revision has changed |
| WorkflowStore.Scheduler.Reschedule | src/hfp_mcp/phone_workflows.py:519-571 | accepted if and only if the row is scheduled at the expected revision, the target is after now and before the deadline, every component stands armed, unclaimed and at its own time, and the moves succeed; then row and jobs end at the target with one more revision; refused without any change; or, when a job move fails, the row stays held with its change pending and the jobs before it moved |
| WorkflowFrames.TakesHoldExactly | src/hfp_mcp/phone_workflows.py:531-548 | between any other operations, a reschedule takes hold of its row exactly under these conditions and when no other operation has one of the jobs in hand |
| WorkflowDecisions.AutomaticRetryExactly | src/hfp_mcp/phone_workflows.py:1052-1099 | a call is retried automatically if and only if it was plainly missed, nothing supersedes it, a retry is left, and from the end of the call plus the delay and from five seconds ahead on there is an instant by day before the deadline |
| WorkflowDecisions.AutomaticRetryMeans | src/hfp_mcp/phone_workflows.py:1085-1099 | the retry waits for the least instant by day that is both the delay after the recorded end of the call, or after now when none is recorded, and five seconds ahead; the root pays one retry, no other row changes |
| WorkflowDecisions.RoutineStatusMeans | src/hfp_mcp/phone_workflows.py:1052-1112 | each status after a routine verdict, cancelled, uncertain, exhausted, expired, held, completed or in need of guidance, is given exactly when callback, root and outcome are as listed |
| WorkflowDecisions.LeftToTheModel | src/hfp_mcp/phone_workflows.py:1052-1112 | exactly a settled call of no reminder that was not plainly missed and has no callback is left to the model |
| WorkflowDecisions.ModelDecisionExactly | src/hfp_mcp/phone_workflows.py:693-772 | a decision of the model is accepted if and only if it is awaited, its disposition is founded on what was heard or verified, and a retry has a time that the rules allow |
| WorkflowDecisions.ModelDecisionMeans | src/hfp_mcp/phone_workflows.py:733-772 | what an accepted decision writes; a retry stands at the time that was asked for, or, without one, at the least instant by day after the delay from the end of the call, and only that one is charged |
| WorkflowGrounds.CommitGrounds | src/hfp_mcp/phone_workflows.py:693-772 | no transaction, of the policy, the model, the owner or the call itself, leaves a decision without its grounds |
| WorkflowGrounds.DecisionsStayGrounded | src/hfp_mcp/phone_workflows.py:1052-1112 | in every run each retry follows a call that is plainly over, completion and refusal follow what was heard or verified, expiry and exhaustion a missed call, on the outcome still recorded |
| WorkflowDecisions.ModelRetryObeysPolicy | src/hfp_mcp/phone_workflows.py:733-760 | an automatic retry by the model uses the same budget and the same calling hours |
| WorkflowLifecycle.CommitKeeps | src/hfp_mcp/phone_workflows.py:65-184 | every transaction keeps the attempt, deadline and lineage invariants of all rows and lets each row evolve only as allowed |
| WorkflowLifecycle.RoutineShape | src/hfp_mcp/phone_workflows.py:1052-1112 | a routine verdict changes nothing, closes the attempt, or holds the row for a charged retry |
| WorkflowBudget.CommitKeepsBudget | src/hfp_mcp/phone_workflows.py:733-760 | every transaction keeps attempts within the retries that were charged, and the root within its delays |
| WorkflowBudget.ChainWithinBudget | src/hfp_mcp/phone_workflows.py:641-645 | over a whole callback chain the attempts are at most the rows plus the automatic and the timed retries |
| WorkflowMeaning.CreationMeans | src/hfp_mcp/phone_workflows.py:65-107 | a known key is answered exactly for equal terms; a new request is accepted exactly for a time from now to a year ahead, before its deadline, and every field of its row |
| WorkflowMeaning.ClaimMeans | src/hfp_mcp/phone_workflows.py:138-159 | a new attempt exactly for the linked job, at the call time, before the deadline; a known execution gets its own attempt |
| WorkflowMeaning.MoveMeans | src/hfp_mcp/phone_workflows.py:531-568 | when a row may be held, and be written by its operation or by a reconciliation, and every field then |
| WorkflowMeaning.CallbackMeans | src/hfp_mcp/phone_workflows.py:606-654 | when the recipient may ask for a callback and what the child takes over from its parent and root |
| WorkflowMeaning.DecisionStepMeans | src/hfp_mcp/phone_workflows.py:1138-1207 | the owner is asked without live authority or after the two minutes of the model; otherwise the routine verdict counts, and the model is asked once |
| WorkflowMeaning.GuidanceMeans | src/hfp_mcp/phone_workflows.py:1039-1050 | an open attempt, or a held row, goes to the owner, a final status stays |
| WorkflowMeaning.ExpiryMeans | src/hfp_mcp/phone_workflows.py:811-817 | a row whose deadline has come expires exactly when it is held, scheduled or with the owner; a firing or final one stays |
| WorkflowMeaning.ReminderMeans | src/hfp_mcp/phone_workflows.py:943-965 | a reminder is claimed exactly by its own job, at its time, with live authority and before the deadline, and once |
| WorkflowSteps.StepKeeps | src/hfp_mcp/phone_workflows.py:399-571 | every step of publishing, moving, admission, reconciliation, job firing and crash keeps the schedule invariant |
| WorkflowMeaning.AdmissionReadMeans | src/hfp_mcp/phone_workflows.py:921-941 | an occurrence is read for admission exactly for the job of its attempt, at the time of the row, with live authority and, for a new automatic retry, by day |
| WorkflowTheorems.ScheduleStaysAligned | src/hfp_mcp/phone_workflows.py:409-450 | in every run a scheduled row has its call job at its call time and its unclaimed reminder at its reminder time, unless one of four named overlaps hit the row |
| WorkflowTheorems.NoSupersededAdmission | src/hfp_mcp/phone_workflows.py:921-941 | a new attempt is admitted only when the occurrence that fired, its job and the row all name one and the same instant |
| WorkflowTheorems.OneLiveCall | src/hfp_mcp/phone_workflows.py:138-159 | at most one attempt is undecided and it is the last, firing rows have one, waiting rows none, executions are distinct, the call time precedes the deadline |
| WorkflowTheorems.CallbackWithinParent | src/hfp_mcp/phone_workflows.py:606-654 | a callback has its parent's root and never a later deadline |
| WorkflowTheorems.FinalForever | src/hfp_mcp/phone_workflows.py:577-604 | a final request stays final and gets no further attempt, a cancelled one stays cancelled, over any further run |
| WorkflowTheorems.BudgetOverChain | src/hfp_mcp/phone_workflows.py:641-645 | in every run the automatic retries of a chain are those its root records, within the configured delays, and pay for every further attempt |
| OperationTheorems.OperationRunsOnce | src/hfp_mcp/phone_workflows.py:519-571 | over any run with crashes, reconciliations and repeats an operation identity holds a row at most once and, unless a reconciliation carried it out from an old copy, writes its target at most once; a saved result is the row written then, as requested |
| OperationTheorems.TargetsWereToCome | src/hfp_mcp/phone_workflows.py:519-571 | over any run, every target that was ever written is the one that was asked for, and it was later than the instant at which its operation took hold of the row |
| OperationTheorems.RepeatIsAnswered | src/hfp_mcp/phone_workflows.py:169-184 | a repeated identity never changes anything: at any later time it gets the result saved first, with the same exception, or is refused as unresolved or different |
| OperationTheorems.ScheduleIsRun | src/hfp_mcp/phone_workflows.py:519-571 | under operation identities the schedule goes through its own runs only, so every theorem about them applies |
| OperationTheorems.RecoveryAnswersRepeats | src/hfp_mcp/phone_workflows.py:819-852 | after a crash anywhere inside a reschedule the restart reconciliation carries the operation out, one revision after the one the caller saw, with its jobs in place, and saves the result that repeats then get |
| OperationTheorems.StaleFinishBreaksExactly | src/hfp_mcp/phone_workflows.py:838-851 | in any run without such an old copy so far, the end of the next reconciliation keeps every target written once and every written row as requested if and only if its copy is the pending change of the row |
| OperationOverlap.OvertakenOperation | src/hfp_mcp/phone_workflows.py:819-852 | a run in which a reconciliation writes the target of an operation a second time, marks the change of another as applied that never was, and overwrites the saved result |
| OperationSteps.ActKeeps | src/hfp_mcp/phone_workflows.py:169-184 | every announcement, read, schedule step, crash and save keeps the invariant that ties calls, changes on rows, copies and results together, and what was saved |
| WorkflowHazards.BlindMoveExactly | src/hfp_mcp/phone_workflows.py:519-571 | a whole reschedule on an early component list keeps the row aligned if and only if the list names the linked job or the job is at the target already |
| WorkflowHazards.BlindFinishExactly | src/hfp_mcp/phone_workflows.py:519-571 | the last step of any such reschedule leaves the row aligned if and only if a linked call job and the unclaimed reminder were moved with it or stand at their times |
| WorkflowHazards.StaleLinkExactly | src/hfp_mcp/phone_workflows.py:409-427 | after a linking step of any publisher on an unflagged row, it is aligned if and only if it is not scheduled or the linked job stands at its call time; without a later attempt it always is |
| WorkflowHazards.PublishOverMoveExactly | src/hfp_mcp/phone_workflows.py:428-450 | after the last step of any publisher on an unflagged row, it is aligned if and only if its call job and unclaimed reminder stand at their times; without later attempt and pending move they always do |
| WorkflowHazards.StaleReconcileExactly | src/hfp_mcp/phone_workflows.py:819-852 | the steps of a whole reconciliation on an aligned, scheduled row move its jobs up to the first that cannot be moved; the row stays aligned if and only if call job and unclaimed reminder, where moved, go to their own times |
| WorkflowHazards.CutReconcileExactly | src/hfp_mcp/phone_workflows.py:828-837 | the same condition, over the jobs moved so far, for a reconciliation that a crash cuts off after any number of them |
| WorkflowHazards.BlindRescheduleHappens | src/hfp_mcp/phone_workflows.py:519-571 | a run ends with a row scheduled at 200 whose job stands at 100 |
| WorkflowHazards.StaleReconcileHappens | src/hfp_mcp/phone_workflows.py:819-852 | a run ends with a row scheduled at 100 whose job stands at 200 |
| WorkflowOverlaps.StaleLinkHappens | src/hfp_mcp/phone_workflows.py:409-419 | a run in which a stalled publisher links the job of the first attempt to the row of the retry |
| WorkflowOverlaps.PublishOverMoveHappens | src/hfp_mcp/phone_workflows.py:428-450 | a run in which a move is cut off by a crash and a publisher arms the row with its old reminder time |
| WorkflowOverlaps.LateReconcileMovesReminder | src/hfp_mcp/phone_workflows.py:819-852 | a run in which a late reconciliation moves the call job to where it stands and the reminder away from its time |
| WorkflowHazards.RecoveryFinishesTheMove | src/hfp_mcp/phone_workflows.py:819-852 | after a crash anywhere inside a reschedule the restart reconciliation ends it: scheduled, aligned and at the requested time |
| PhoneTasks.TaskCapacity.Reserve | src/hfp_mcp/phone_tasks.py:35-46 | a slot is granted if the task has one already or the table is below the limit |
| PhoneTasks.TaskCapacity.Reconcile | src/hfp_mcp/phone_tasks.py:52-57 | the owner's slots become those of its active tasks, other owners keep theirs |
| PhoneTasks.Registry.MayAct | src/hfp_mcp/phone_tasks.py:123-136 | true if and only if the binding of the run is active and not expired, and every task of the run is neither final nor stopping and either continues before its deadline or has a live parent call |
| PhoneTasks.Registry.Admit | src/hfp_mcp/phone_tasks.py:302-311 | the run is recorded once for its own binding; a revoked task records it as stopping and is refused |
| PhoneTasks.Registry.Correct | src/hfp_mcp/phone_tasks.py:327-361 | a new attempt under a copied lease and a closed old one, exactly when these conditions hold for the old run |
| TaskMeaning.StoppingMeans | src/hfp_mcp/phone_tasks.py:313-325 | a stop marks the row, takes back the lease and, without a known run, cancels the task and frees its slot, in this order under crashes |
| TaskMeaning.PreparingMeans | src/hfp_mcp/phone_tasks.py:200-275 | when a submission is prepared, and with which lease and session |
| TaskMeaning.RecoveringMeans | src/hfp_mcp/phone_tasks.py:168-172 | at startup exactly the open tasks without a recorded run become uncertain and lose their lease |
| PhoneTasks.AuthorityExactly | src/hfp_mcp/phone_tasks.py:123-136 | the same conditions for the authority that the state machine tests |
| TaskMeaning.AdmissionMeans | src/hfp_mcp/phone_tasks.py:302-311 | a run is admitted exactly for its binding as the first or the same one, goes on exactly while nobody stopped or ended the task, and is recorded anyway |
| TaskMeaning.RefreshMeans | src/hfp_mcp/phone_tasks.py:396-428 | which native status a task takes over, and when a success counts as failed |
| TaskMeaning.ReceiptMeans | src/hfp_mcp/phone_tasks.py:107-121 | the last eight receipts are kept in order, and the delivery is suppressed exactly while all of them are by call only |
| TaskMeaning.SlotsMean | src/hfp_mcp/phone_tasks.py:35-57 | who has a slot after a reservation, a release and a reconciliation |
| TaskSteps.StepKeeps | src/hfp_mcp/phone_tasks.py:200-431 | every step of every gateway, crashes included, keeps slots, sessions, leases, posts and deliveries consistent |
| TaskTheorems.HandedOverOnce | src/hfp_mcp/phone_tasks.py:521-571 | over any run with restarts a result is handed to the messaging gateway at most once, and only of a closed task |
| TaskTheorems.ClaimIsForever | src/hfp_mcp/phone_tasks.py:537-541 | a claimed delivery never becomes pending again |
| TaskTheorems.ClosedForever | src/hfp_mcp/phone_tasks.py:302-325 | the final statuses together with stopping are never left, and no permission to continue is added |
| TaskTheorems.AttemptPostedOnce | src/hfp_mcp/phone_tasks.py:277-300 | each attempt of a task is posted at most once, across crashes and restarts |
| TaskTheorems.OneLeaseEach | src/hfp_mcp/phone_tasks.py:327-361 | at most one lease of a task is active, it is the one its row names, and all of them expire at the same time |
| TaskTheorems.SupersededForever | src/hfp_mcp/caller_context.py:251-258 | after a correction the old run never has authority again, while deadline, lease time, session and slot stay the same |
| TaskTheorems.StoppedHasNoAuthority | src/hfp_mcp/phone_tasks.py:123-136 | a run whose task was stopped or is over has no authority in any later state |
| TaskTheorems.DeadlineEndsAuthority | src/hfp_mcp/phone_tasks.py:131-132 | from the deadline of a continued task on its run has no authority in any later state |
| TaskTheorems.CallEndsAuthority | src/hfp_mcp/phone_tasks.py:133-134 | in every reachable state a run whose task does not continue has no authority once its call is over |
| TaskTheorems.DeadlineIsFixed | src/hfp_mcp/phone_tasks.py:478-485 | the deadline of a task that continues after the call does not move |
| TaskTheorems.CapacityHolds | src/hfp_mcp/phone_tasks.py:24-57 | active tasks hold slots and stay within the limit over all gateways, but for those whose slot was released too early |
| TaskTheorems.SlotLostExactly | src/hfp_mcp/phone_tasks.py:427-428 | an active task that holds a slot is active without one after a step if and only if a refresh of its finished run stopped between releasing the slot and saving the row |
| TaskTheorems.LimitCanBeExceeded | src/hfp_mcp/phone_tasks.py:427-428 | with a limit of one, a run ends with two active tasks |
| TaskTheorems.SessionsApart | src/hfp_mcp/phone_tasks.py:244-250 | no two active tasks share a native session |
| CallerNotes.CallerStore.ReplaceNotes | src/hfp_mcp/caller_context.py:183-197 | notes change only within 8000 characters and at the expected revision, then with the next revision; other callers are untouched |
| CloseoutStore.CallMemory.Prepare | src/hfp_mcp/call_memory.py:184-205 | the events that are new to the closeout, nothing when all are recorded, or a refusal |
| CloseoutStore.CallMemory.Validate | src/hfp_mcp/call_memory.py:243-274 | one candidate without a caller's quote refuses the whole answer; unclear or irrelevant ones are left out |
| CloseoutStore.CallMemory.Record | src/hfp_mcp/call_memory.py:222-241 | new facts, the batch and its fingerprints are recorded together, or nothing is |
| CloseoutStore.CallMemory.SealRow | src/hfp_mcp/call_memory.py:276-290 | an open closeout is sealed once, its completeness and deadline only get stricter |
| CloseoutStore.CallMemory.Commit | src/hfp_mcp/call_memory.py:341-371 | notes and closeout change in one transaction, or the attempt is counted as failed |
| CloseoutStore.CallMemory.Merge | src/hfp_mcp/call_memory.py:294-371 | the model's edits and then the remaining facts are applied to the notes that were read, and committed; an unusable answer counts as a failed attempt and changes nothing |
| CloseoutStore.CallMemory.Forget | src/hfp_mcp/caller_context.py:199-208 | the notes and all closeouts of the caller are gone, revision and generation advance, other callers are untouched |
| CloseoutMeaning.WorkerMeans | src/hfp_mcp/call_memory.py:459-477 | which rows the recovery worker writes back, as what, and which it removes |
| CloseoutMeaning.CheckpointMeans | src/hfp_mcp/call_memory.py:184-205 | a batch is taken up, found recorded or refused exactly by time, permission, bounds, equal repetition and an open closeout |
| CloseoutMeaning.RecordingMeans | src/hfp_mcp/call_memory.py:222-241 | facts, batch and fingerprints join exactly those there, if the closeout is live, permitted and open and every fact is quoted from the caller |
| CloseoutMeaning.SealMeans | src/hfp_mcp/call_memory.py:276-290 | when a closeout is sealed, and its completeness, end and deadline then |
| CloseoutMeaning.CommitMeans | src/hfp_mcp/call_memory.py:341-371 | notes change exactly for an unchanged revision and generation in time, and which status follows |
| CloseoutRuns.AddUpdatesKeeps | src/hfp_mcp/call_memory.py:229-234 | facts are appended in order, none is kept twice and none that is new is dropped |
| CloseoutRuns.StepKeeps | src/hfp_mcp/call_memory.py:104-371 | every step of checkpoint, finalize, merge, forget, recovery and restart keeps the closeout invariants |
| CloseoutTheorems.RevisionNamesNotes | src/hfp_mcp/caller_context.py:149-208 | revisions never fall, equal revisions mean equal notes, and notes never exceed 8000 characters |
| CloseoutTheorems.NoLostUpdate | src/hfp_mcp/caller_context.py:183-197 | a write that names the revision it read replaces exactly the notes it read |
| CloseoutTheorems.MergeReplacesWhatItRead | src/hfp_mcp/call_memory.py:341-360 | what a merge writes was computed from the notes and the frozen facts that it replaces and consumes |
| CloseoutTheorems.ForgottenNeverWrites | src/hfp_mcp/caller_context.py:199-208 | no closeout that was begun before a forget ever changes the notes |
| CloseoutTheorems.OneWriteEach | src/hfp_mcp/call_memory.py:294-371 | each closeout changes the notes at most once, under any retries, recovery and crashes |
| CloseoutTheorems.FrozenOnceSealed | src/hfp_mcp/call_memory.py:276-371 | after sealing, the facts stay the same until they are all disposed of, and final stays final |
| CloseoutTheorems.EventsRecordedOnce | src/hfp_mcp/call_memory.py:222-241 | the event lists of the batches are disjoint, their union is the set of fingerprints, and every fact has a recorded source |
| CloseoutTheorems.RecordLostExactly | src/hfp_mcp/call_memory.py:459-477 | a recorded event is forgotten if and only if the recovery worker writes back a pending copy without it after its deadline |
| CloseoutTheorems.FinalStatusChangesExactly | src/hfp_mcp/call_memory.py:459-477 | a final status changes if and only if such a copy overrules it |
| CloseoutTheorems.FinishedIsOverruled | src/hfp_mcp/call_memory.py:459-477 | a run in which a closeout that ended well is reported as failed |
| MemoryCapture.Capture.NextBatch | src/hfp_mcp/memory_capture.py:70-79 | the batch is the longest prefix within its bounds, after as much recent context as fits |
| MemoryCapture.Capture.Acknowledge | src/hfp_mcp/memory_capture.py:81-84 | exactly the acknowledged prefix leaves the queue and becomes context |
| CloseoutMeaning.AcknowledgementMeans | src/hfp_mcp/memory_capture.py:81-84 | the acknowledged prefix leaves the queue and the last four of what was told are the context |
| CloseoutMeaning.BatchMeans | src/hfp_mcp/memory_capture.py:70-79 | the batch is the longest prefix of at most 96 events and, but for the first, 18000 characters |
| CloseoutMeaning.RecoveryMeans | src/hfp_mcp/memory_capture.py:161-201 | after a restart exactly the retained events without an acknowledgement are sent again, and completeness is claimed exactly when they are all |
| MemoryCapture.PostedFits | src/hfp_mcp/memory_capture.py:70-80 | a posted batch never exceeds the server's bounds in events and characters |
| MemoryCapture.PostedAcceptedExactly | src/hfp_mcp/call_memory.py:153-191 | a posted batch of valid events is accepted if and only if its escaped JSON is within 100000 characters |
| MemoryCapture.TwoGreekEvents | src/hfp_mcp/memory_capture.py:70-79 | two events that pass alone exceed the bound in the one batch they are sent in |
| CaptureBlocked.NeverAcknowledged | src/hfp_mcp/memory_capture.py:62-118 | from a batch over the bound on, no event is acknowledged, whatever is retried, captured or answered late, until the client restarts |
| CaptureBlocked.SilentAndRefused | src/hfp_mcp/memory_capture.py:62-118 | while context and batch together are over the bound and nothing more is heard, no event is acknowledged until the client restarts |
| CaptureBlocked.TwoGreekEventsBlock | src/hfp_mcp/memory_capture.py:39-79 | a run of two captured events that gets there |
| CaptureSteps.CountingIsEnough | src/hfp_mcp/memory_capture.py:196-199 | as many events at hand as were captured are exactly the captured ones |
| CaptureSteps.MoveKeeps | src/hfp_mcp/memory_capture.py:39-118 | every move of client, network and server keeps the capture invariant |
| CaptureTheorems.AcknowledgedIsRecordedIsHeard | src/hfp_mcp/memory_capture.py:62-118 | under any loss, repetition and restart, acknowledged events are recorded and recorded events were heard unchanged, while the row is not lost |
| CaptureTheorems.CompleteMeansComplete | src/hfp_mcp/memory_capture.py:161-201 | a closeout sealed as complete has recorded every event of the call |
| CaptureTheorems.AcknowledgedCanBeLost | src/hfp_mcp/call_memory.py:474-477 | a run in which an acknowledged event is no longer recorded |
| NoteMerge.NoteRecords | src/hfp_mcp/call_memory.py:373-390 | one record for each line that is not blank, with its latest readable report time |
| NoteMergeProofs.Reconcile | src/hfp_mcp/call_memory.py:392-449 | the edited note, the facts to append and the number applied, or a refusal; on lines and facts themselves `LinesAreTreated` and `MergeIsAccepted` say when and what |
| NoteMergeProofs.ApplyRevision | src/hfp_mcp/call_memory.py:410-442 | one revision is refused, set aside as stale, or turned into line edits |
| NoteMergeMeaning.LinesAreTreated | src/hfp_mcp/call_memory.py:392-449 | no line that was reported, or saved when its annotation has no time, after every supporting fact is rewritten or removed, and the facts of its revision come back; a revision with a fact as recent as each of its lines rewrites the first and removes the others; no other line changes |
| NoteMergeMeaning.MergeIsAccepted | src/hfp_mcp/call_memory.py:392-421 | a merge is accepted if and only if it has at most 32 revisions, of lines that say something and given facts, each named once, with a text of one line within 8000 characters and without annotation |
| NoteMergeProofs.AcceptedExactly | src/hfp_mcp/call_memory.py:392-421 | a merge is accepted if and only if all references are known, none is used twice and every revision has a valid text |
| NoteMergeProofs.NothingUsedTwice | src/hfp_mcp/call_memory.py:392-449 | returned and applied facts are together at most the given ones; exactly the kept and the stale ones are returned |
| NoteMergeProofs.UntouchedLinesStay | src/hfp_mcp/call_memory.py:443-449 | every line not named by an up-to-date revision stays in place byte for byte; only stale revisions leave the note as it was |
| NoteMergeProofs.RevisionTakesEffect | src/hfp_mcp/call_memory.py:422-442 | an up-to-date revision rewrites its first line and removes its others, a stale one leaves its lines and returns its facts |
| NoteMergeProofs.ProvenanceIsKept | src/hfp_mcp/call_memory.py:428-439 | a rewritten line holds every source label of the old lines and of the supporting facts |
| NoteMergeProofs.LinesRoundTrip | src/hfp_mcp/call_memory.py:443-449 | splitting a note into lines and joining them again loses nothing |
| NoteAppend.AppendFacts | src/hfp_mcp/call_memory.py:317-340 | the loop writes the facts one after the other as specified and counts the changes |
| NoteAppendProofs.FactsAreNoted | src/hfp_mcp/call_memory.py:317-340 | afterwards every fact is noted on some line with its annotation or as something this call noted before, every line that says none of them stands unchanged in its place, nothing but facts is added, and no change is no change of the text |
| NoteAppendProofs.WrittenOnce | src/hfp_mcp/call_memory.py:317-340 | writing a fact a second time changes nothing, if the text rules recognise a fact in the line written for it |
| NoteAppendProofs.JoinedAgain | src/hfp_mcp/call_memory.py:326-335 | joining lines and splitting again gives the same lines, but for a blank one at the end |
| NoteAppendProofs.QuotedByLine | src/hfp_mcp/call_memory.py:337-338 | a text within one line that the note contains is contained in one of its lines |
| Playback.PlaybackQueue.Pcm | src/hfp_mcp/audio/gemini_playback.py:250-292 | whole frames are enqueued and the rest is kept; an overflow enqueues nothing; the buffered count stays exact |
| Playback.PlaybackQueue.Flush | src/hfp_mcp/audio/gemini_playback.py:294-321 | the partial frame is padded with silence and enqueued, or refused |
| Playback.PlaybackQueue.Control | src/hfp_mcp/audio/gemini_playback.py:235-248 | a marker of the kind, window and epoch that was asked for joins the end of the queue and nothing else changes; a full queue stays as it was |
| Playback.PlaybackQueue.Clear | src/hfp_mcp/audio/gemini_playback.py:206-213 | a new epoch with an empty queue; buffered frames count as interrupted if asked |
| Playback.PlaybackQueue.Take | src/hfp_mcp/audio/gemini_playback.py:150-154 | the first item leaves the queue and the count of frames follows |
| Playback.FramedShape | src/hfp_mcp/audio/gemini_playback.py:254-286 | frames of 320 bytes and a shorter remainder are together the input |
| WriterMeaning.LockingMeans | src/hfp_mcp/audio/gemini_playback.py:186-204 | under the send lock exactly what is of the current epoch is sent, the frames of anything else count as interrupted |
| WriterMeaning.FetchingMeans | src/hfp_mcp/audio/gemini_playback.py:156-184 | an item joins the batch exactly when it is a frame of its epoch, and is kept for later otherwise |
| AudioMeaning.SpeechMeans | src/hfp_mcp/audio/gemini_playback.py:250-292 | exactly while there is room for all frames each of them is enqueued with epoch, window and its 320 bytes; otherwise the counters say how many were refused |
| AudioMeaning.FlushMeans | src/hfp_mcp/audio/gemini_playback.py:294-321 | the remainder becomes one frame that ends in silence |
| PlaybackWriter.StepKeeps | src/hfp_mcp/audio/gemini_playback.py:44-204 | every step of producer and writer keeps order, balance and bytes |
| PlaybackWriter.PlaysInOrder | src/hfp_mcp/audio/gemini_playback.py:44-223 | what was asked to be played in this epoch, whole frames with their window and bytes, the last one filled up with silence, and markers with their kind and window, is in order what was sent, is in hand and is queued; all frames balance, over any number of provider runs |
| PlaybackWriter.NothingOldIsSent | src/hfp_mcp/audio/gemini_playback.py:186-213 | after an interruption no item of an older epoch is sent |
| InputPipeline.Pipeline.Queue | src/hfp_mcp/gemini_live.py:1783-1803 | a frame joins the startup buffer or the live queue, the oldest gives way when it is full |
| InputPipeline.Pipeline.Connect | src/hfp_mcp/gemini_live.py:1882-1895 | at the handoff the live queue keeps its last five frames and the others are counted for the reason of the connection |
| InputPipeline.Pipeline.TakeBatch | src/hfp_mcp/gemini_live.py:915-956 | the next batch is the front of the startup buffer followed by the live queue |
| AudioMeaning.QueueMeans | src/hfp_mcp/gemini_live.py:1783-1803 | where a frame goes, which frame gives way, and which counters follow |
| AudioMeaning.ConnectionMeans | src/hfp_mcp/gemini_live.py:1882-1895 | a connection keeps the latest five live frames, not the oldest, and counts the others for its reason |
| InputPipeline.StepKeeps | src/hfp_mcp/gemini_live.py:910-982 | every step of capture, connection, sender and shutdown keeps balance and order |
| InputPipeline.FramesBalance | src/hfp_mcp/gemini_live.py:1783-1822 | every captured frame is submitted, dropped for one of six counted reasons, buffered, in hand, or lost with a sender or session |
| InputPipeline.SubmittedInOrder | src/hfp_mcp/gemini_live.py:910-982 | submitted frames are an ordered, unaltered subsequence of the captured ones, older than all that is buffered |
| OwnerLookup.PageRecords | src/hfp_mcp/owner_lookup.py:64-118 | the page and cursor of the specification, over the whole list or over a window of it |
| OwnerLookup.LongestPrefix | src/hfp_mcp/owner_lookup.py:98-106 | the binary search returns the longest prefix that fits |
| OwnerLookup.Longest | src/hfp_mcp/owner_lookup.py:98-106 | the result fits unless it is zero, and nothing longer fits |
| OwnerLookup.ShorterFits | src/hfp_mcp/owner_lookup.py:86-90 | a prefix of a slice that fits also fits |
| OwnerLookup.FitsExactlyInAscii | src/hfp_mcp/owner_lookup.py:86-90 | of the three sizes the one with ASCII escapes decides |
| OwnerMeaning.CursorMeans | src/hfp_mcp/owner_lookup.py:48-61 | a cursor is accepted if and only if query and scope are those it was made for and both offsets are numbers of 63 bits |
| OwnerMeaning.NextCursorMeans | src/hfp_mcp/owner_lookup.py:114-118 | the cursor of a page names its query and scope and the first record that is not all told |
| JsonSize.CharacterMeans | src/hfp_mcp/owner_lookup.py:86-90 | the width of every character in each of the three measures |
| OwnerPages.FillShape | src/hfp_mcp/owner_lookup.py:73-113 | a page takes whole records in order up to its limit, or cuts the first one; it always moves on |
| OwnerPages.PageFailsExactly | src/hfp_mcp/owner_lookup.py:91-107 | a page fails if and only if its first record cannot give even one character |
| OwnerPages.PageExceedsExactly | src/hfp_mcp/owner_lookup.py:86-118 | a returned page exceeds the budget if and only if the room left by the size test is less than its completion marks and cursor take |
| OwnerPages.CutPageExceeds | src/hfp_mcp/owner_lookup.py:95-118 | every page that cuts a record exceeds the budget |
| OwnerPages.LongNoteExceeds | src/hfp_mcp/owner_lookup.py:86-118 | one note of 12000 letters gives a page over the budget |
| OwnerPages.WindowGivesTheSamePage | src/hfp_mcp/owner_lookup.py:194-207 | reading one row more than the limit gives the same page as the whole list |
| OwnerPages.PageProgress | src/hfp_mcp/owner_lookup.py:114-117 | every cursor points further: fewer records, or fewer characters of the same record |
| OwnerPages.CursorsReassemble | src/hfp_mcp/owner_lookup.py:64-118 | following the cursors gives every record once, in order, with its slices joining to the full text |
| OwnerPages.EnumerationCompletes | src/hfp_mcp/owner_lookup.py:64-118 | following the cursors ends without error when every record fits at least one character at a time |
| OwnerPages.EveryRecordOnce | src/hfp_mcp/owner_lookup.py:64-118 | from the first page on, the pages hold exactly the list |
| OwnerPages.CutOnlyWhenTooLong | src/hfp_mcp/owner_lookup.py:91-110 | a record is cut only when its rest does not fit, and then at the longest prefix that does |
| OwnerPages.ChangedRecordIsNoticed | src/hfp_mcp/owner_lookup.py:76-81 | after a cut the next page is empty if and only if the list has become too short, refused if and only if another record stands there or the rest gives no character, and otherwise continues the identical record |
| OwnerPages.CutRecordCanVanish | src/hfp_mcp/owner_lookup.py:72-117 | a run in which the rest of a long note is never read because the list was emptied in between |

## Left out

- SQLite, JSON parsing, hashing and credentials: tables are maps, transactions are atomic, a fingerprint is the value it is computed from; the sizes of JSON that are compared with a bound are modelled exactly.
- HTTP, WebSocket, native cron, session and gateway libraries: their effects are steps of the state machines with arbitrary timing.
- Language models: what they extract, merge or decide is an arbitrary value that the code validates; prompts, messages and schemas are not modelled.
- Workflow rows of schema version 1, pruning, report texts and the delivery of reports and callback confirmations.
- A cancellation from another thread between the status check and the routine verdict of one decision step: the two count as one step.
- WorkflowStore.Store.CancelChain: the pausing of the native jobs of cancelled requests; single cancellations at any point are part of the state machine.
- WorkflowStore.Scheduler.Reschedule: one run under its fences; interleaved runs are the steps of `WorkflowSchedule` and, under operation identities, of `WorkflowOperations`.
- Time zones and daylight saving: the offset of a row is fixed.
- PhoneTasks.Registry.MayAct: the link between a managed session and its caller is not modelled; the parent call is a flag.
- Tasks: deletion of a conversation together with its tasks, approvals, steering of a running task, and a change of the limit while tasks are active.
- TaskTheorems.LimitCanBeExceeded: shows one run; that an exceeded limit always involves such a task is `CapacityHolds`.
- CloseoutStore.CallMemory.Validate: the cleaning of a fact's text, its dates and its kind are part of the given candidate.
- CloseoutStore.CallMemory.Commit: takes the merged note as given; `CloseoutStore.CallMemory.Merge` computes it.
- NoteMerge.NoteRecords: recognising source labels and cleaning text are given functions.
- NoteAppendProofs.FactsAreNoted: for facts of one line each, whose annotation names the call; what a line says, whether it bears a date or a source, and the rendering are given functions.
- OperationTheorems.OperationRunsOnce: of the operations only reschedules are put under identities; decisions and callback requests have identities of their own, and the reconciliation that publishes a row after a decision and saves its receipt (lines 853-856) is not part of the table's runs.
- MemoryCapture.PostedAcceptedExactly: timestamps are whole seconds, written as the source writes a float of whole value; the filter of captured events by call and direction is not part of a run.
- PlaybackWriter.PlaysInOrder: pacing and lateness are free choices of the state machine; a timeout that cancels a queue read in the middle is one step; counters are not reset between provider runs.
- InputPipeline.FramesBalance: resampling and the audio probes; which frames move where is kept.
- Owner lookup: validation of the query, authorization and the database query itself.
- Callback worker, live request bookkeeping, installers, settings, routing, enrollment, media leases, diagnostics and the command line: single-branch facts or input and output.
