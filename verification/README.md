# Verified model of the WorkBot protocols

This project models the stateful protocols of WorkBot (an office-PC agent and its Linux worker) in Dafny and proves
what every run of them keeps. Each protocol is a deterministic step function over atomic steps, one step per piece of
code that nothing can interrupt (a lock-held write, the code between two awaits, a transaction); environment answers,
crashes, restarts and the interleaving are the action sequence, and the main results hold for every sequence. Where
the code is imperative, a class has the code's fields and methods, and its results are those of the step functions: its
contracts say so, or for workflows `RunnerReachesOutcome`, `CancelMarksUnfinished` and `RetryResetsDownstream`. Where
the code falls short of what it is for, the exact condition is proved, with a run that shows the gap.

`dafny verify dfyconfig.toml` checks everything.

## Files

- `TaskTurns.dfy`: one task of the Linux worker, write by write, with its monitors, its first launch, crash and recovery.
  `TaskTurnSafety.dfy`, `TaskTurnScopes.dfy`, `TaskTurnResults.dfy`, `TaskTurnReports.dfy`: what all runs keep;
  `TaskTurnMonitors.dfy`, `TaskTurnOwners.dfy`, `TaskTurnEndings.dfy`: who takes a task further, and what is left when
  it has ended; `TaskTurnQueue.dfy`, `TaskTurnLaunches.dfy`: no instruction lost, doubled or reordered.
  `TaskSections.dfy` gives lock-held sections in closed form, `TaskEffects.dfy` and `TaskOutcomes.dfy` say field by field
  what they do, `WorkerDaemon.dfy` has the worker as a class.
- `Outbox.dfy`, `OutboxFifo.dfy`, `OutboxDelivery.dfy`, `OutboundService.dfy`: the durable outbound queue
  of one conversation.
- `Scheduler.dfy`, `SchedulerRuns.dfy`, `SchedulerProgress.dfy`, `SchedulerService.dfy`: the priority gate for agent
  slots.
- `WorkflowGraph.dfy`, `WorkflowRows.dfy`, `WorkflowService.dfy`: dependency graphs, stored rows, the runner and the
  operator actions as a class. `WorkflowRuns.dfy`: all their interleavings with crashes; `WorkflowOutcomes.dfy`: what
  its sections do row by row; `WorkflowDrive.dfy`: how far a runner gets by itself, and that whole runs end as in the
  class. `WorkflowPayments.dfy` counts invocations of Windows
  steps; `WorkflowRisk.dfy` and `WorkflowFoundation.dfy` are about completed steps and their dependencies.
- `TextSplit.dfy`, `CodeBlocks.dfy`, `CodeBlockBack.dfy`, `MessagePack.dfy`, `RenderShown.dfy`, `ReplySplit.dfy`: splitting
  replies for the chat transport.
- `RateBudget.dfy`, `RateRuns.dfy`, `HistoryBudget.dfy`, `HistoryRuns.dfy`: the file-backed sliding-window limiter
  and its in-process twin.
- `RagIndex.dfy`, `RagCoherence.dfy`, `RagOutcomes.dfy`, `RagService.dfy`: coherence of chunks, markers and vectors, chunk
  replacement, the embedding job.
- `Whitespace.dfy`, `JsonText.dfy`, `AgentEnvelope.dfy`, `EnvelopeChecks.dfy`: the peer envelope and its round trips.
- `PeerCommands.dfy`, `PeerProtocol.dfy`: commands in a request, seen-id window, routing, and the message cascade of a
  group of agents.

## Where the code falls short

- A steer handled while the first launch is outstanding is overtaken by it: the launch guard tests only for
  `cancelled`. Every other steer is safe (`SteerSafeExactly`).
- A crash between a steer's turn bump and its kill makes recovery adopt the superseded turn's session, because the
  row's `session_id` is older than its `current_turn`; the next steer then leaves two turns running
  (`CrashSafeExactly`).
- When tmux refuses the session of a steer or of a continuation, the task stays open with nobody to take it further; so it
  does after a crash between the start of a steer's process and the row that says so (`NeglectExactly`). After a crash at
  that point in any later turn, recovery looks for the older session in the row and can fail the task while the new
  process runs on (`StrayExactly`).
- A cancelled send leaves its row in `sending`; the conversation is blocked until a restart (`ProgressExactly`).
- History verification compares texts, so of two equal parts the second can be marked delivered unsent
  (`UnsentDeliveryExactly`, `EqualPartsLoseOne`).
- A promoted waiter that is cancelled before it resumes gives its slot up without waking the next one; the scheduler
  can stand still with free slots and waiters (`LostWakeupExactly`, `HandoffDeadlock`).
- A workflow retry does not wait for a live runner, which goes on with results it has read: a workflow can end completed
  with the retried step pending (`RetryBesideRunnerExactly`, `StaleResultsComplete`). It resets its rows one by one in
  no particular order, so a crash, or a child task that cannot be cancelled, can leave a completed step above a pending
  one (`CrashedRetryExactly`, `DroppedRetryExactly`, `CrashedRetryLeavesGap`, `RaisedRetryLeavesGap`). While it waits for
  a child task to be cancelled, a runner can begin and be cancelled, and one retry then invokes a Windows step twice
  (`OverdrawsExactly`, `RetryInvokesTwice`).
- The file-backed limiter forgets its last grant when the spacing exceeds the window (`SpacingExactly`),
  although the two are separate parameters. Reading the clock before taking the lock does no harm:
  late stamps are denied (`StaleCall`).
- An embedding that finishes with a handle from before a backend promotion, or during a reset, can make the index
  answer from old content or lose a chunk; so can one that finishes while the promotion copies (`UpsertKeepsExactly`,
  `StaleHandleGivesStaleHit`, `ResetLosesChunk`, `PromotionLosesChunk`).
- The hop limit does not bound peer requests, because a forwarded request starts again at hop 0; what bounds them is
  that the forwarded body is shorter (`Quiesces`). A peer request can also be a discovery command, which sends a hello.

## Model

| member | source | states |
|---|---|---|
| TaskTurns.EnqueuedOnce | linux/workbot_worker/store.py:119-123 | an event gets a pending row at the back exactly when no row has its id; other rows stay, and an id never has two rows |
| TaskTurns.LeastQueued | linux/workbot_worker/store.py:113-117 | the least queued sequence number of its kind, 0 exactly when none is queued |
| TaskTurnSafety.CommitAgrees | linux/workbot_worker/store.py:125-143 | the terminal row and its one terminal event are written together |
| TaskTurnSafety.SafeStep | linux/workbot_worker/daemon.py:238-766 | every atomic step but an early steer keeps the invariant that ties row, turn, lock holder, monitors and outbox together, and never lowers current_turn |
| TaskTurnSafety.SafeRun | linux/workbot_worker/daemon.py:297-357 | over runs with any interleaving and any number of crashes, the invariant holds and current_turn never decreases |
| TaskTurnSafety.TerminalIffEvent | linux/workbot_worker/store.py:125-143 | in every state a task is terminal exactly when its single terminal event is in the outbox, for its current turn |
| TaskTurnSafety.SupersededTurnNeverFinal | linux/workbot_worker/daemon.py:332-351 | once a steer has bumped turn t, no result of a turn up to t ever becomes the terminal result |
| TaskTurnSafety.TerminalForever | linux/workbot_worker/daemon.py:517-524 | terminal states are absorbing |
| TaskTurnSafety.PendingUntilAcked | linux/workbot_worker/store.py:145-149 | an outbox row is never lost or rewritten and stays pending until its own acknowledgement, crashes included |
| TaskTurnSafety.LateEventsDropped | linux/workbot_worker/daemon.py:159-184 | no event of a local client is queued any more for a terminal task or a superseded turn |
| TaskTurnScopes.OneScopeLive | linux/workbot_worker/daemon.py:397-495 | at most one turn has a live execution scope at any time, over any number of crashes and recoveries, given the two guards |
| TaskTurnScopes.SteerSafeExactly | linux/workbot_worker/daemon.py:741-766 | a steer can be overtaken by an earlier turn or launch exactly when it is handled while the first launch is outstanding |
| TaskTurnScopes.EarlySteerOvertaken | linux/workbot_worker/daemon.py:749-757 | witness: the outstanding first launch ends a steered task with a result of turn 1 or none |
| TaskTurnScopes.EarlySteerOverlaps | linux/workbot_worker/daemon.py:749-757 | witness: two scopes live and current_turn back at 1 |
| TaskTurnScopes.CrashSafeExactly | linux/workbot_worker/daemon.py:452-495 | a crash can lead to two live scopes exactly when it falls between a steer's turn bump and its kill of a live scope |
| TaskTurnScopes.OrphanAdopted | linux/workbot_worker/daemon.py:462-480 | after such a crash recovery adopts the session of the superseded turn |
| TaskTurnScopes.OrphanOverlaps | linux/workbot_worker/daemon.py:332-351 | witness: the next steer kills the wrong scope and two turns run at once |
| TaskTurnResults.CompletedMeansExitZero | linux/workbot_worker/daemon.py:525-560 | over runs with any number of crashes: whatever is reported completed, a turn or the task, has left an exit file with code 0 |
| TaskTurnResults.CancelledMeansDead | linux/workbot_worker/daemon.py:252-263 | over such runs a cancelled task has no live process, from the commit on for ever |
| TaskTurnResults.LocalEventKept | linux/workbot_worker/daemon.py:159-184 | an event of a local client is in the outbox for ever from its acceptance on, or dropped exactly for a terminal task or another turn |
| TaskTurnResults.EndedForGood | linux/workbot_worker/daemon.py:517-524 | behind the end of a task nothing is launched, no row changes, and only completed turns are still reported |
| TaskTurnReports.CompletedToldOnce | linux/workbot_worker/daemon.py:545-563 | no turn is reported completed twice, although the report comes after the lock is released |
| TaskTurnReports.IdsQueuedOnce | linux/workbot_worker/store.py:119-143 | over any run at all no two events of a local client have the same id, and no two terminal events the same kind |
| TaskTurnOwners.AlwaysOwned | linux/workbot_worker/daemon.py:433-495 | while the worker runs, an open task is always in the hands of the lock holder, the first launch, the monitor of its turn or the finalizer that chose its row |
| TaskTurnOwners.NeglectExactly | linux/workbot_worker/daemon.py:722-729 | a step can leave an open task to nobody exactly when it is the failed launch of a steer or a continuation, or a crash between the start of a steer's process and the row that says so |
| TaskTurnOwners.NeglectedStays | linux/workbot_worker/daemon.py:297-331 | such a task stays as it is until a steer, a cancellation or a restart; appends do not help |
| TaskTurnEndings.EndedMeansDead | linux/workbot_worker/daemon.py:503-506 | over runs without such a crash a task that has ended in any way has no live process |
| TaskTurnEndings.StrayExactly | linux/workbot_worker/daemon.py:470-495 | a step can lead to an ended task with a live process exactly when it is a crash between the start of a later turn's process and the row that records its session |
| TaskTurnLaunches.LaunchedOnceInOrder | linux/workbot_worker/daemon.py:541-575 | in crash-free runs with successful launches every instruction is launched at most once and appends launch in sequence order, across the gap between choosing and launching too |
| TaskTurnLaunches.CompletedLosesNothing | linux/workbot_worker/daemon.py:541-560 | a completed task has launched every accepted instruction exactly once |
| TaskTurnQueue.AccountedStep | linux/workbot_worker/daemon.py:508-578 | each step keeps the books of what is queued, chosen, launched and finished |
| TaskSections.LaunchSteps | linux/workbot_worker/daemon.py:651-739 | the chain of writes of a launch equals its closed form |
| TaskSections.SteerSteps | linux/workbot_worker/daemon.py:332-351 | the eight writes of a steer equal its closed form |
| TaskSections.CancelSteps | linux/workbot_worker/daemon.py:238-265 | the writes of a cancellation equal its closed form |
| TaskSections.FinalizeSteps | linux/workbot_worker/daemon.py:508-547 | the writes of a finalization equal its closed form |
| TaskSections.LostSteps | linux/workbot_worker/daemon.py:605-618 | the writes for a lost session equal their closed form |
| TaskOutcomes.CancelOutcome | linux/workbot_worker/daemon.py:238-265 | field by field: the scope of the current turn is killed, its row dropped if queued or running, the cancellation reported, nothing else changed |
| TaskOutcomes.FinalizeOutcome | linux/workbot_worker/daemon.py:508-547 | field by field: failed and row failed exactly for a code other than 0; for 0 row completed, and the task completed exactly when nothing is queued, otherwise it goes on with the first queued row |
| TaskOutcomes.LostOutcome | linux/workbot_worker/daemon.py:605-618 | field by field: task and row fail |
| TaskOutcomes.LaunchOutcome | linux/workbot_worker/daemon.py:651-739 | field by field: scope live, row running, start reported, session recorded and watched |
| TaskOutcomes.SteerOutcome | linux/workbot_worker/daemon.py:297-357 | field by field: the next turn runs, the old scope is dead, the old row superseded if it was running |
| TaskOutcomes.FirstLaunchOutcome | linux/workbot_worker/daemon.py:741-757 | the task is reported started, and turn 1 runs |
| TaskOutcomes.FirstLaunchFailure | linux/workbot_worker/daemon.py:758-766 | the task fails unless it has been cancelled |
| TaskOutcomes.ContinuationOutcome | linux/workbot_worker/daemon.py:549-575 | the finished turn is reported and the chosen row runs as the next turn |
| TaskOutcomes.LastTurnTold | linux/workbot_worker/daemon.py:545-563 | the last turn is reported completed |
| TaskOutcomes.RestartOutcome | linux/workbot_worker/daemon.py:452-495 | field by field: which task is watched, started over, failed or left alone |
| TaskOutcomes.MonitorOutcome | linux/workbot_worker/daemon.py:586-591 | a monitor goes on exactly while its turn has the task |
| TaskOutcomes.AckOutcome | linux/workbot_worker/store.py:148-149 | exactly one row becomes delivered |
| WorkerDaemon.Worker.constructor | linux/workbot_worker/daemon.py:267-295 | a created task with its initial instruction |
| WorkerDaemon.Worker.Enqueue | linux/workbot_worker/store.py:119-123 | insert or ignore by event id |
| WorkerDaemon.Worker.FinalizeAndEnqueue | linux/workbot_worker/store.py:125-143 | one transaction for the row and its event |
| WorkerDaemon.Worker.Ack | linux/workbot_worker/store.py:148-149 | exactly one row becomes delivered |
| WorkerDaemon.Worker.LaunchTurnLocked | linux/workbot_worker/daemon.py:651-739 | launched exactly when the spawn succeeds and the name is free; all fields as in LaunchOutcome, unchanged otherwise |
| WorkerDaemon.Worker.TaskInstruction | linux/workbot_worker/daemon.py:297-357 | append or steer, all fields as in SteerOutcome; refused only in the listed cases |
| WorkerDaemon.Worker.CancelTask | linux/workbot_worker/daemon.py:238-265 | cancelled with the live scopes less that of the current turn, row and report as in CancelOutcome; also the closed form of its steps |
| WorkerDaemon.Worker.RunTaskLocked | linux/workbot_worker/daemon.py:749-757 | the first launch once it owns the lock; its guard tests only for cancelled |
| WorkerDaemon.Worker.RunTaskFailed | linux/workbot_worker/daemon.py:758-766 | the failure path of the first launch |
| WorkerDaemon.Worker.FinalizeFromFiles | linux/workbot_worker/daemon.py:508-547 | failed exactly for a code other than 0, completed exactly for 0 with nothing queued; all fields as in FinalizeOutcome |
| WorkerDaemon.Worker.TellTurnCompleted | linux/workbot_worker/daemon.py:549-560 | the event sent outside the lock |
| WorkerDaemon.Worker.LaunchChosen | linux/workbot_worker/daemon.py:561-575 | the launch after the lock is taken again, with its re-checks |
| WorkerDaemon.Worker.SessionLost | linux/workbot_worker/daemon.py:605-618 | a monitor that finds no session and no result; all fields as in LostOutcome |
| WorkerDaemon.Worker.HandleLocalEvent | linux/workbot_worker/daemon.py:159-184 | filter of local events |
| WorkerDaemon.Worker.RecoverTask | linux/workbot_worker/daemon.py:452-495 | recovery of one task, all fields as in RestartOutcome |
| OutboxFifo.OutboxIsFifo | workbot/main.py:853-1004 | every run of concurrent senders, retries, failures, cancellations, crashes and restarts is a run of a plain FIFO queue: stamps increase, delivered rows are a prefix, only the first undelivered row can be sending |
| OutboxFifo.RowsAreFifo | workbot/main.py:853-1004 | the same from the empty queue, row by row: accepted texts in order, increasing stamps, and only delivered rows before one that is sending or delivered |
| Outbox.QueuedStep | workbot/main.py:924-970 | each step puts a batch at the back, takes one from the front, or does nothing |
| OutboxDelivery.StuckForever | workbot/main.py:934-961 | a first row left in sending by a cancelled send blocks the conversation as long as the process runs |
| OutboxDelivery.SticksExactly | workbot/main.py:934-961 | a step leaves the first undelivered row in sending with nobody to own it exactly when it cancels an attempt |
| OutboxDelivery.LockIsKept | workbot/main.py:853-870 | a held lock stays with its batch, at the same row or the next, until it comes free; no sender and no loop gets it meanwhile |
| OutboxDelivery.ProgressExactly | workbot/main.py:972-1004 | an idle conversation can deliver its first row without a restart exactly when that row is pending |
| OutboxDelivery.IdleDelivers | workbot/main.py:972-1004 | and then the loop does deliver it, whatever it had picked before |
| OutboxDelivery.RestartUnsticks | workbot/main.py:124-127 | startup makes such a row pending again |
| OutboxDelivery.RestartRequeues | workbot/main.py:124-127 | behind a crash and a restart exactly the rows that were being sent have become pending |
| OutboxDelivery.SentAtMostOnce | workbot/main.py:916-920 | with a truthful history no row is physically sent twice, over any run |
| OutboxDelivery.NothingSentTwice | workbot/main.py:916-920 | the same from the empty queue |
| OutboxDelivery.DeliveredMeansSent | workbot/im/welink.py:1392-1438 | if no other message answers for a row being verified, every delivered row was sent exactly once |
| OutboxDelivery.DeliveredWasSent | workbot/im/welink.py:1392-1438 | the same from the empty queue, for every delivered row |
| OutboxDelivery.UnsentDeliveryExactly | workbot/im/welink.py:1044-1067 | an unsent row whose check is answered is marked delivered exactly when another message in the history matches it |
| OutboxDelivery.EqualPartsLoseOne | workbot/im/welink.py:1044-1067 | witness: of two equal parts of one reply the second is taken for delivered unsent |
| OutboundService.Conversation.Startup | workbot/main.py:124-127 | a new process re-queues interrupted sends |
| OutboundService.Conversation.SendMessage | workbot/im/welink.py:1392-1438 | delivered exactly in the three cases of AttemptOutcome; posted exactly when sent; also the chain of its steps |
| OutboundService.Conversation.AttemptOutbound | workbot/main.py:924-970 | a pending row ends as in AttemptOutcome, any other stays; also the chain of its steps |
| OutboundService.Conversation.SendText | workbot/main.py:853-922 | all parts are queued before the first is sent; none is sent while an older row waits, otherwise they go out up to the first failure |
| OutboundService.Conversation.RetryOldest | workbot/main.py:972-1004 | one round of the retry loop |
| OutboundService.BatchKeeps | workbot/main.py:853-922 | a batch leaves a FIFO behind and delivers a prefix of its parts |
| OutboundService.AttemptOutcome | workbot/im/welink.py:1392-1438 | from the adapter's answers alone: a pending row is delivered exactly when the first check found it, or it was sent and accepted, or it was sent, met a transient error and an answered check found it; otherwise it is pending with one more attempt |
| OutboundService.BatchOutcome | workbot/main.py:853-922 | a batch is delivered part by part up to the first failure; the rest stays pending |
| SchedulerRuns.NeverOversubscribed | workbot/agents/scheduler.py:76-87 | active plus stopping never exceeds max_concurrent, in any run |
| SchedulerRuns.WakeupsKept | workbot/agents/scheduler.py:135-147 | in runs without a dropped hand-off, whenever a slot is free nobody waits |
| SchedulerRuns.LostWakeupExactly | workbot/agents/scheduler.py:126-129 | a step loses a wake-up exactly when a promoted invocation, cancelled before it resumed, gives its slot up while others wait |
| SchedulerRuns.ReleaseServesFirst | workbot/agents/scheduler.py:135-147 | a release promotes exactly the first live waiter by priority and arrival, whatever stale entries the heap holds |
| SchedulerRuns.PromoteServes | workbot/agents/scheduler.py:135-147 | the promotion loop takes exactly the first of the queue |
| SchedulerRuns.ArrivalsDoNotOvertake | workbot/agents/scheduler.py:112-125 | an arrival takes a slot at once only when nobody waits |
| SchedulerRuns.DeadForever | workbot/agents/scheduler.py:126-147 | with free slots, waiters and no occupant the scheduler never runs anything again |
| SchedulerRuns.HandoffDeadlock | workbot/agents/scheduler.py:216-250 | witness: three callers on one slot reach that state |
| SchedulerProgress.FinishGivesBack | workbot/agents/scheduler.py:150-162 | an invocation that ends, cancelled meanwhile or not, leaves the registry; the first live waiter holds its slot, or one slot fewer is occupied |
| SchedulerProgress.InterruptedGivesBack | workbot/agents/scheduler.py:117-129 | so does a promoted one whose task was cancelled before it ran |
| SchedulerProgress.ServedExactly | workbot/agents/scheduler.py:135-147 | while no wake-up has been lost, a live waiter can enter in some run, and in one without a dropped hand-off, exactly when some occupant is not one cancelled between promotion and first step |
| SchedulerProgress.EntersAtOnceExactly | workbot/agents/scheduler.py:112-119 | while no wake-up has been lost, an arrival enters at once exactly when a slot is free |
| SchedulerProgress.WithdrawnNeverRuns | workbot/agents/scheduler.py:216-250 | over any run a caller cancelled before its body begins never begins it |
| SchedulerProgress.WithdrawnLeaves | workbot/agents/scheduler.py:117-129 | when its owner runs it leaves the registry, and gives back a slot it had been promised unless it was stopped |
| SchedulerProgress.InitIsSound | workbot/agents/scheduler.py:69-71 | a scheduler starts with all slots free, at least one |
| SchedulerProgress.RunningKeepsSlot | workbot/agents/scheduler.py:76-87 | over any run a body that has begun keeps its slot, cancelled or not, until it ends |
| Scheduler.Least | workbot/agents/scheduler.py:135-147 | the least heap entry |
| SchedulerService.AgentScheduler.Acquire | workbot/agents/scheduler.py:89-125 | a slot or a place in the heap |
| SchedulerService.AgentScheduler.HeapPop | workbot/agents/scheduler.py:135-147 | removes exactly the least entry |
| SchedulerService.AgentScheduler.ReleaseSlot | workbot/agents/scheduler.py:135-147 | the slot goes to the first waiter or comes free; the loop equals the recursive promotion |
| SchedulerService.AgentScheduler.ResumeWaiter | workbot/agents/scheduler.py:112-133 | a waiter that runs again |
| SchedulerService.AgentScheduler.CancelOne | workbot/agents/scheduler.py:216-250 | cancellation of one invocation |
| SchedulerService.AgentScheduler.CancelAll | workbot/agents/scheduler.py:252-258 | afterwards exactly the former occupants are left, all stopping, and occupy the same slots |
| SchedulerService.CancelKeepsSlots | workbot/agents/scheduler.py:216-250 | cancelling frees no slot and takes exactly its invocation out of the queue |
| WorkflowGraph.Downstream | workbot/main.py:3243-3251 | the fixpoint loop ends, with exactly the steps from which the retried one is reachable through depends_on |
| WorkflowGraph.WaitingIsDoomed | workbot/main.py:2955-2957 | steps that all wait on each other lie on or depend on a cycle |
| WorkflowGraph.StuckIsDoomed | workbot/main.py:2955-2957 | with no ready step, the steps left are exactly those that lie on or depend on a cycle |
| WorkflowGraph.AcyclicMeansNoneDoomed | workbot/agents/manager.py:1116-1123 | no step is doomed exactly when the accepted plan is acyclic; validation itself excludes only self-dependence |
| WorkflowRows.ResetKeepsFounded | workbot/main.py:3245-3258 | resetting the downstream set keeps completed dependencies below every completed step |
| WorkflowRows.PrefixesFoundedExactly | workbot/main.py:3252-3258 | every prefix of the row-by-row reset keeps that exactly when each completed dependent is reset before its dependency |
| WorkflowRows.PrefixFoundedExactly | workbot/main.py:3252-3258 | a prefix of the row-by-row reset keeps that exactly when no completed dependent is left above one of its rows |
| WorkflowService.RunKeeps | workbot/main.py:2938-2994 | a run keeps completed steps founded and off all cycles |
| WorkflowService.RunStartsInOrder | workbot/main.py:2948-2969 | each step starts at most once, only after all its dependencies, and never if it was complete |
| WorkflowService.RunWrites | workbot/main.py:2958-2969 | started steps end completed or failed, all other rows stay; a started failure fails the workflow |
| WorkflowService.CompletesAllButDoomed | workbot/main.py:2948-2976 | without failures exactly the steps off and not behind cycles are completed, and the workflow completes exactly when the graph is acyclic |
| WorkflowService.CompletesExactly | workbot/main.py:2938-2994 | for any failures: the workflow completes exactly when all steps are complete already, or no row is halted, the graph is acyclic and no unfinished step fails |
| WorkflowService.HaltedStartsNothing | workbot/main.py:2948-2954 | with a failed, interrupted or cancelled row nothing is started, and the workflow fails unless only cancelled rows halt it |
| WorkflowService.Workflow.RunStep | workbot/main.py:3081-3165 | one step: a completed row is returned, otherwise it runs and is marked |
| WorkflowService.Workflow.Gather | workbot/main.py:2958-2969 | the ready steps of a round run together |
| WorkflowService.Workflow.Pass | workbot/main.py:2948-2972 | one pass of the runner loop |
| WorkflowService.Workflow.Run | workbot/main.py:2938-2994 | the runner loop terminates with the rows, rounds and state of its specification, whose properties are the lemmas above |
| WorkflowService.Workflow.Recover | workbot/main.py:3170-3193 | per stored state: left alone, cancelled, blocked with exactly the running Windows steps interrupted, or run again |
| WorkflowService.Workflow.Cancel | workbot/main.py:3195-3220 | row by row: completed and failed stay, every other row is cancelled; terminal workflows are left alone |
| WorkflowService.Workflow.Resume | workbot/main.py:3222-3234 | only for a blocked workflow: exactly the interrupted steps become pending |
| WorkflowService.Workflow.Retry | workbot/main.py:3236-3262 | exactly the downstream rows are reset, every other row stays, and completed steps stay founded |
| WorkflowService.Workflow.constructor | workbot/orchestration/manager.py:17-46 | all rows pending |
| WorkflowService.Workflow.Mark | workbot/orchestration/manager.py:56-95 | exactly the given rows get the state |
| WorkflowDrive.DoomedNeverStarts | workbot/main.py:2941-2970 | in every run whatsoever no step on or behind a cycle is started or completed |
| WorkflowDrive.StopsExactlyAtCycles | workbot/main.py:2955-2957 | in every run whatsoever, a runner without a ready step has exactly those steps left |
| WorkflowPayments.RestartBlocks | workbot/main.py:3170-3186 | a Windows step running at a restart becomes interrupted, its workflow blocked, and no runner exists |
| WorkflowPayments.InterruptedNeedsOperator | workbot/orchestration/manager.py:70-95 | whatever else happens, an interrupted step is started by nothing and becomes pending only by a resume or a retry |
| WorkflowRuns.RetryResetsDownstream | workbot/main.py:3236-3262 | a retry left alone, whatever the order of its rows, makes exactly the downstream rows pending and leaves a runner |
| WorkflowRuns.CancelMarksUnfinished | workbot/main.py:3195-3220 | row by row: behind a cancellation left alone completed and failed rows are as before, every other is cancelled, and no runner is left |
| WorkflowRuns.RestartCancels | workbot/main.py:3175-3177 | the same for a cancellation that a crash interrupted and recovery takes up |
| WorkflowRuns.RestartInterrupts | workbot/main.py:3178-3191 | row by row: a restart makes exactly the running Windows steps interrupted; blocked if there is one, otherwise a runner is there |
| WorkflowOutcomes.StartOutcome | workbot/main.py:3081-3094 | a step completed meanwhile is taken as done, an interrupted Windows step fails, any other runs, which for a Windows step is one more invocation |
| WorkflowOutcomes.ChildOutcome | workbot/main.py:3131-3147 | a step on another node without a child task gets one, live with its row running |
| WorkflowOutcomes.FinishOutcome | workbot/main.py:3148-3165 | a step that ends is completed, or failed; no other row changes |
| WorkflowOutcomes.FailedGatherOutcome | workbot/main.py:2963-2968 | a gather with a failed step ends the runner; row and workflow are failed, whatever has happened to the row meanwhile |
| WorkflowOutcomes.WaitingCancelOutcome | workbot/main.py:3207-3218 | a cancellation that waits for a child task marks the same rows as one that does not |
| WorkflowOutcomes.CancelledWhenMarked | workbot/main.py:3207-3218 | no cancellation is reported before the rows it has to mark are marked |
| WorkflowOutcomes.CancelWaitsAtChild | workbot/main.py:3207-3214 | it gives way only while a child task is being cancelled |
| WorkflowOutcomes.ResumeOutcome | workbot/main.py:3222-3234 | exactly the interrupted rows become pending; a workflow that is not blocked is left alone |
| WorkflowOutcomes.DropOnlyAtChild | workbot/main.py:3252-3258 | a retry ends with an exception only where it is cancelling a child task |
| WorkflowOutcomes.CrashInCancelOutcome | workbot/main.py:3207-3218 | a crash between the marks of a cancellation leaves exactly the reached rows marked |
| WorkflowOutcomes.CrashInRecoveryOutcome | workbot/orchestration/manager.py:83-95 | a recovery that crashes again has marked running Windows steps and no other row |
| WorkflowDrive.RunnerReachesOutcome | workbot/main.py:2938-2994 | a runner left alone goes through steps of the run model to the result that the class is proved to compute |
| WorkflowDrive.Drive | workbot/main.py:2948-2972 | a runner whose steps succeed gets to every step that no cycle holds up |
| WorkflowPayments.StartsAtMostOncePerAction | workbot/main.py:3089-3098 | over any interleaving and any number of crashes, a Windows step's initial invocation starts at most once per create, resume or retry, if no retry overdraws |
| WorkflowPayments.OverdrawsExactly | workbot/main.py:3236-3262 | after a retry some run starts the step more often than paid for exactly when the retry overdraws: it gives way, at a row with a live child task, to a runner that can start the step, which was not owed, and be stopped in it, and nothing halts the runner the retry spawns |
| WorkflowFoundation.CompletedHasCompletedDependencies | workbot/main.py:3170-3262 | through any interleaving of runner, child tasks, crashes anywhere, recovery, cancel, resume, retry and retries ended by an exception, at every moment a completed step has only completed dependencies, if no sweep begins at risk and a retry resets dependents first |
| WorkflowFoundation.RiskExactly | workbot/main.py:2941-2970 | from a state, some run that cuts no retry short leaves a completed step on a dependency that is not completed exactly when the runner may yet complete a step on a row that a cancellation will mark, that a retry will reset behind its back, or that it only believes completed |
| WorkflowFoundation.RetryBesideRunnerExactly | workbot/main.py:3236-3262 | the same for a retry that does not wait for a live runner, in terms of rows, runner and child tasks at the call |
| WorkflowFoundation.RetryWithoutChildren | workbot/main.py:3252-3258 | a retry without live child tasks is one step: risky only for what the runner holds completed, never for one that has not begun |
| WorkflowFoundation.ResetSurvivesCrashExactly | workbot/main.py:3252-3258 | a crash behind a reset keeps completed steps on completed dependencies exactly when no other completed dependent is left to reset |
| WorkflowFoundation.CrashedRetryExactly | workbot/main.py:3245-3258 | a retry survives a crash behind its first rows, whatever follows, exactly when no completed dependent is left above one of them |
| WorkflowFoundation.CrashedAnywhereExactly | workbot/main.py:3245-3258 | it survives a crash behind any row exactly when its order puts each completed dependent before its dependency |
| WorkflowFoundation.DroppedRetryExactly | workbot/main.py:3254-3258 | the same as for a crash when a child task cannot be cancelled and the retry ends there with an exception |
| WorkflowFoundation.CrashedRetryLeavesGap | workbot/main.py:3252-3258 | witness: reset, crash, recovery leave a completed step above a pending one in a completed workflow |
| WorkflowFoundation.RaisedRetryLeavesGap | workbot/main.py:3254-3258 | witness: a retry that cannot cancel a child task leaves a completed step above a pending one without a crash |
| WorkflowFoundation.StaleResultsComplete | workbot/main.py:841-845 | witness: a runner that holds the retried step completed ends the workflow completed with that step pending |
| WorkflowPayments.RetryInvokesTwice | workbot/main.py:3195-3262 | witness: a retry that waits for a child task, a runner that begins meanwhile and a cancellation give two invocations of a Windows step |
| TextSplit.LastBreak | workbot/im/welink_format.py:301-312 | the greatest cut of its kind in range, 0 exactly when there is none |
| TextSplit.CutFits | workbot/im/welink_format.py:296-313 | a cut makes progress and its piece renders within the limit; it exceeds the limit, by one, only on a newline that rendering strips |
| TextSplit.CutExactly | workbot/im/welink_format.py:296-314 | the cut is the last paragraph end in reach, else the last line end, else sentence end, else space, else the limit; reach is spelled out |
| TextSplit.FindBreak | workbot/im/welink_format.py:302-312 | the backward search finds that cut |
| TextSplit.PreferredTextCut | workbot/im/welink_format.py:296-313 | the chosen cut, whose properties are the two lemmas above |
| TextSplit.PiecesKeepText | workbot/im/welink_format.py:316-327 | the pieces concatenate to the text |
| TextSplit.PiecesFit | workbot/im/welink_format.py:316-327 | no piece is empty and each renders within the limit |
| TextSplit.SplitPlainText | workbot/im/welink_format.py:316-327 | the loop terminates with those pieces |
| CodeBlocks.NormalizeLanguage | workbot/im/welink_format.py:85-88 | always a supported language, and the given one if supported |
| CodeBlocks.PartRendersShorter | workbot/im/welink_format.py:91-108 | a part of a code never renders longer than the whole, digits of totalLines included |
| CodeBlocks.OneFits | workbot/im/welink_format.py:358-366 | one character fits any limit from 256 |
| CodeBlocks.FenceNewline | workbot/im/welink_format.py:330-334 | the newline a fence adds is not sent |
| CodeBlockBack.BlockBack | workbot/im/welink_format.py:91-108 | body, language and number of lines can be read back from a native block: the code but for one final newline, a supported language, its line count |
| CodeBlockBack.LanguageNames | workbot/im/welink_format.py:31-69 | common names stand for a supported language, unknown ones for Python |
| RenderShown.RenderShows | workbot/im/welink_format.py:256-284 | every visible character of the text and the block itself are in the rendered message, in order |
| RenderShown.CompactExactly | workbot/im/welink_format.py:268-282 | behind a block exactly leading blank lines give way to one line break |
| CodeBlocks.LargestPassing | workbot/im/welink_format.py:362-370 | the binary search finds the last passing length |
| CodeBlocks.LargestPrefix | workbot/im/welink_format.py:361-370 | the longest prefix that fits: all up to it fit, no longer one does |
| CodeBlocks.SplitLine | workbot/im/welink_format.py:358-372 | slices of an oversized line make it up, and each fits |
| CodeBlocks.OversizedFlushes | workbot/im/welink_format.py:351-356 | an oversized line never overtakes buffered lines |
| CodeBlocks.AddLine | workbot/im/welink_format.py:349-372 | one line is buffered, or the buffer flushed before it, or it is cut up |
| CodeBlocks.SplitCodeSegment | workbot/im/welink_format.py:337-375 | the slices concatenate to the code, each part fits, and a part ends inside a line only where that line does not fit alone |
| MessagePack.Packer.Flush | workbot/im/welink_format.py:411-417 | what is carried stays, the current message is emptied |
| MessagePack.Packer.AddCode | workbot/im/welink_format.py:420-430 | the block follows what is carried, in a message with no other block |
| MessagePack.Packer.AddText | workbot/im/welink_format.py:432-454 | the loop terminates; the text follows what is carried, line breaks aside |
| MessagePack.Packer.Fill | workbot/im/welink_format.py:440-448 | fills the rest of the limit at a preferred cut |
| MessagePack.Pack | workbot/im/welink_format.py:407-466 | every message renders within the limit, with at most one code block and complete fences, and carries text and blocks in order |
| ReplySplit.Atomize | workbot/im/welink_format.py:393-405 | one segment is cut without losing or moving a character |
| ReplySplit.SplitReply | workbot/im/welink_format.py:378-466 | the whole splitter: bound, one block, complete fences, every character of the source in order |
| RateRuns.GrantsAreLimited | workbot/tools/welink_rate.py:30-50 | for calls stamped in any order, grants are in order, every half-open window holds at most limit, and they keep min(spacing, window) |
| RateBudget.StaleCall | workbot/tools/welink_rate.py:30-38 | a call stamped before the latest one is denied and changes nothing |
| RateRuns.SpacingExactly | workbot/tools/welink_rate.py:37-42 | the full spacing is kept in all runs exactly when it is within the window |
| RateRuns.WaitIsExact | workbot/tools/welink_rate.py:38-46 | undisturbed retries are granted exactly from now + wait on, with the gap really kept |
| RateRuns.WaitIsExactInRuns | workbot/tools/welink_rate.py:38-46 | with spacing within the window the returned wait is sufficient and minimal, for every denied call of every run |
| RateBudget.SharedRateBudget.TryReserve | workbot/tools/welink_rate.py:30-50 | decision, wait and new file content; other keys stay |
| HistoryBudget.QueriesAreLimited | workbot/im/welink.py:874-902 | with any mix of failures, cooldowns and refusals every window holds at most limit queries, a full spacing apart |
| HistoryBudget.TwinsAgreeExactly | workbot/im/welink.py:874-890 | both limiters grant the same calls in all runs exactly when the spacing is within the window |
| HistoryRuns.RunsExactly | workbot/im/welink.py:864-902 | over any run a query may run exactly when every cooldown and wait demanded before is over, the last query is a spacing ago and the window holds fewer than limit |
| HistoryBudget.Budget.Prune | workbot/im/welink.py:874-877 | the loop drops exactly the entries outside the window |
| HistoryBudget.Budget.SlotAvailable | workbot/im/welink.py:879-884 | free exactly when neither deadline nor budget forbids |
| HistoryBudget.Budget.ConsumeSlot | workbot/im/welink.py:886-890 | the time is recorded and the deadline set |
| HistoryBudget.Budget.EnterCooldown | workbot/im/welink.py:864-872 | both deadlines move to the end of the cooldown unless they are later, and no further |
| HistoryBudget.Budget.RunQuery | workbot/im/welink.py:1047-1056 | one query is one step of the run model |
| HistoryBudget.Budget.ResetIn | workbot/im/welink.py:904-909 | zero exactly when the budget is free, otherwise exactly the time until an entry leaves the window |
| RagCoherence.HitsAreCurrent | workbot/rag/store.py:515-529 | in harmless interleavings a vector hit was computed from the current content, each chunk is exactly one of pending or fresh, and each fresh chunk can be hit |
| RagCoherence.UpsertKeepsExactly | workbot/rag/store.py:351-388 | behind an upsert every run of edits, promotion, resets and crashes goes on serving searches exactly when the upsert is harmless: what it stores of present content is not still to be cleared by a reset, and agrees with every table searches will use and it does not write |
| RagCoherence.CoherentExactly | workbot/rag/store.py:159-203 | the invariant is exactly what searches need: it holds in a state if and only if every such run from there serves them |
| RagIndex.OthersKeep | workbot/rag/store.py:159-203 | edits, promotion, reset and crashes keep it unconditionally |
| RagOutcomes.InsertOutcome | workbot/rag/store.py:284-289 | a new chunk is pending under an id never used before; nothing else changes |
| RagOutcomes.ChangeOutcome | workbot/rag/store.py:267-276 | a chunk whose content changes is pending and cannot be hit; nothing else changes |
| RagOutcomes.DeleteOutcome | workbot/rag/store.py:293-296 | a deleted chunk takes marker and fallback vector with it; nothing else changes |
| RagOutcomes.EmbedOutcome | workbot/rag/store.py:351-388 | marker and vector of each item, or nothing if one names a chunk that is gone; no other chunk is touched |
| RagOutcomes.PromotionOutcome | workbot/rag/store.py:173-203 | a promotion left alone serves every vector from the other table and loses no hit |
| RagOutcomes.ResetOutcome | workbot/rag/store.py:531-544 | a reset left alone keeps every chunk, makes all pending and leaves nothing to hit |
| RagCoherence.StaleHandleGivesStaleHit | workbot/rag/store.py:173-203 | witness: an embedding finishing with the old handle after promotion yields a hit on old content |
| RagCoherence.ResetLosesChunk | workbot/rag/store.py:531-544 | witness: an embedding stored inside a reset keeps its marker and loses its vector |
| RagCoherence.PromotionLosesChunk | workbot/rag/store.py:173-203 | witness: an embedding stored while a promotion copies never reaches the promoted table |
| RagService.RagStore.ReplaceChunks | workbot/rag/store.py:251-297 | exactly the non-blank contents at their ordinals; other documents stay; marker and vector are kept exactly for unchanged chunks; ids are never reused; the count is exact |
| RagService.RagStore.PutContent | workbot/rag/store.py:258-292 | one ordinal of it |
| RagService.RagStore.DropRows | workbot/rag/store.py:293-296 | stale rows go, with markers and vectors |
| RagService.RagStore.UpsertVectors | workbot/rag/store.py:351-388 | all items or, if a chunk is gone, none |
| RagService.RagStore.PendingChunks | workbot/rag/store.py:317-339 | distinct pending chunks with present hashes, as many as the limit allows |
| RagService.RagStore.EmbedPending | workbot/rag/service.py:358-390 | embeds min(limit, pending) chunks if the provider answers, none otherwise, and keeps the index coherent; its change is an embedding step of the run model |
| RagService.RagStore.RunEmbedJob | workbot/rag/service.py:423-444 | the job terminates; it embeds min(target, pending), and without a target every chunk can be hit afterwards; its changes are embedding steps of the run model |
| RagService.BatchIsFresh | workbot/rag/service.py:365-390 | a stored batch makes exactly its chunks fresh |
| JsonText.QuoteBack | workbot/collaboration/protocol.py:85-105 | every string survives quoting and unquoting |
| JsonText.ObjectBack | workbot/collaboration/protocol.py:85-105 | printing and parsing an object gives its fields back and leaves what follows |
| Whitespace.CollapseConcat | workbot/im/welink.py:396-397 | how collapsing white space acts on a concatenation |
| AgentEnvelope.RoundTrip | workbot/collaboration/protocol.py:74-131 | for every envelope and body: decoding the encoded message gives the normalized envelope and the stripped body exactly when the envelope is acceptable, nothing otherwise |
| AgentEnvelope.RoundTripWithPrefix | workbot/collaboration/protocol.py:89-97 | the same behind any shown [AGENT...] prefix, in any case, with white space around |
| AgentEnvelope.RoundTripCollapsed | workbot/im/welink.py:396-397 | after all white space runs are collapsed a valid envelope decodes to itself with the collapsed body |
| AgentEnvelope.RoundTripCollapsedWithPrefix | workbot/collaboration/protocol.py:89-131 | the same with a prefix |
| EnvelopeChecks.ReadBackExactly | workbot/collaboration/protocol.py:108-131 | an envelope is read back as it is exactly when version, identifiers, type and hop are as the protocol asks |
| EnvelopeChecks.DecodedIsWellFormed | workbot/collaboration/protocol.py:98-131 | whatever text arrives, only a well-formed envelope comes out of it, and only behind the marker |
| EnvelopeChecks.DecodedIsStable | workbot/collaboration/protocol.py:74-131 | what was decoded, from whatever text, is read back when it is sent on |
| EnvelopeChecks.NumberAsText | workbot/collaboration/protocol.py:109-116 | version and hop may come as text with digits; other text is refused, an absent field counts as 0 |
| PeerProtocol.AcceptedOncePerWindow | workbot/main.py:574-584 | between two acceptances of one id 2048 others are accepted, whatever arrives |
| PeerProtocol.AcceptedExactly | workbot/main.py:574-584 | an id is accepted exactly when it is not among the last 2048 accepted, and is among them from then on |
| PeerProtocol.Peer.Remember | workbot/main.py:574-584 | false exactly for an id in the window; the set is always that of the list, at most 2048 long |
| PeerProtocol.Peer.RouteMessage | workbot/main.py:586-676 | a turn starts exactly for a trusted, targeted request whose id is new; an acknowledgement exactly for a new hello that registers |
| PeerCommands.CommandOf | workbot/main.py:1620-1630 | a forwarded body is strictly shorter than the request that carried it |
| PeerCommands.CommandExactly | workbot/main.py:1620-1624 | a request is taken for a command to forward exactly when it is spelled so, in any case and white space, and with exactly that peer and body |
| PeerProtocol.EmitsExactly | workbot/main.py:586-676 | what a handled message leads to: one acknowledgement, the request asked for, responses, or nothing |
| PeerProtocol.StepLowers | workbot/main.py:853-885 | handling a message lowers the potential by more than what it emits |
| PeerProtocol.Quiesces | workbot/main.py:586-676 | without operator actions every run of any number of agents handles and emits a number of messages bounded beforehand |

## Left out

- Several tasks at once: all worker SQL is keyed by task id, so one task is modelled; shell tasks (no turns) are not.
- Duplicate `task.create`: `INSERT OR REPLACE` revives a terminal row; task ids are taken as fresh, and the two inserts
  of a creation as one step.
- Recovery beside clients: the worker already serves clients while it recovers; recovery is one step before them.
- SSH relay, sockets, tmux, signals, process launch: outcomes of abstract actions; a kill takes effect.
- `next_attempt_at`, back-off and the limit of 20 rows per round: the retry loop may pick the oldest row at any time.
- History queries: the window of 20 messages and message normalization; a truthful answer means that a match is found
  exactly when there is one.
- Scheduler metadata, `bind_cancel_task`, waiting for exit and statistics.
- Workflow steps: steering inside a step, approvals, text results and the synthesis of the final answer. Milestones only
  in that anything can come between a gather and the next round. Two retries at once count as one.
- Child tasks of workflow steps: creation, end and cancellation are answers of the environment; an ended child task stays
  ended (a rejection that crosses the end of the task can write `running` over it).
- Cancellations: the order in which one marks its rows is left open, and several that wait for child tasks are taken
  together; no run that shows a gap depends on either. A crash between the writes of a resume is not modelled; a resume
  has no await.
- WorkflowService.Workflow.Gather: the steps of a round run one after the other here; their interleaving with everything
  else is in `WorkflowRuns`.
- Markdown parsing: fences, tables and their conversion; the splitter starts from parsed segments. A cut inside a line
  that itself contains a fence marker could therefore create a fence that the segments do not show.
- CodeBlocks.NormalizeLanguage: for a value already stripped and in lower case.
- CodeBlocks.SplitCodeSegment: `lines` is any cut of the code into non-empty pieces, which covers Python's line ends.
- Floating-point rounding: times of the limiters are reals. `reserve_blocking` and the directory lock are taken as given.
- RagCoherence.HitsAreCurrent: partition keys, top-k limits, distances and SQLite extension internals; a second promotion
  at the same time; a search that itself holds an old handle.
- RagService.RagStore.PendingChunks: the priority order among pending chunks.
- RagService.RagStore.UpsertVectors: the dimension check, which rejects a batch before any write.
- JsonText.ObjectBack: objects of strings and integers; nested values, other numbers, `null` and surrogate escapes are
  not parsed, since the encoder never prints them.
- AgentEnvelope.ReadEnvelope: a number sent as text counts when it consists of digits; signs, underscores and digits of
  other scripts, which Python's `int` also takes, do not.
- PeerProtocol.Peer.RouteMessage: peer bindings are a fixed table; discovery registration and its expiry are an answer
  of the environment.
- PeerProtocol.Quiesces: replies to one message have a bound on their parts; pending actions that an operator confirms
  are operator actions.
- Prompts and model calls, OCR, intent routing, approvals, policy, GUI and setup: not protocol state.
