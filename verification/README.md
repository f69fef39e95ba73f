# Verified model of the AIGovClaw control layer

A Dafny model of the parts of AIGovClaw that decide what is done, how often, and who allowed it:
the bounded agent loops and the PDCA cycle, the action executor with its authority policy, audit
log, rate limiter and rollback, the Jules dispatcher, the hub's task runner, and three small pure
algorithms (request ids, the deep merge of file updates, the fallback YAML parser).

`dafny verify dfyconfig.toml` checks the whole project.

## How the model is built

Objects whose methods update fields are classes with those fields. Every such method is proved
equal to a function on the old state (`View() == Spec(old(View()), ...)`, or the same said of the
fields), and the theorems are lemmas about those functions, over every run. What the code calls
but does not decide is an oracle that may answer anything: analyzers, executors, verifiers,
assessors, handlers, API sessions and feeds, process exits, clocks, random bits and the moments at
which another thread pauses a loop.

| file | models |
|---|---|
| BaseLoop, CascadeLoop | the loop driver; the cascade queue against a level-order listing of the cascade tree |
| GapResolutionLoop | the retry loop against a plan computed gap by gap |
| PdcaCycle | the four-phase cycle with its pause flag and history |
| AuthorityPolicy, ActionExecutor, ExecutorAudit | mode resolution; execute, approve and reject as small steps with crashes between them; the accounts of the log |
| AuditLog, RateLimitedRuns | day files and the rate limiter; the executor asking it about its own log |
| Snapshots | snapshot, handler and rollback on a file system of paths |
| FlaggedIssues, Dispatcher | the issue state graph, its store, and the passes over it |
| TaskRunner | each locked block as one step, the unlocked write of the capture thread as two |
| RequestIds, DeepMerge | base-32 ids; merging JSON objects |
| FallbackYaml, YamlText, YamlRoundTrip | the parser with its cursor, and a printer it inverts |
| Wrappers | Option, Result, and counting by cases |

Where the code and what one would expect of it differ, the model follows the code:

- `AuthorityPolicy.resolve` starts from the policy's default mode, not from the action's own
  default authority as its docstring says (authority_policy.py:84).
- One attempt of a loop may call `execute` twice, when the structured call fails after it was made
  (cascade_loop.py:195-200, gap_resolution.py:211-225).
- A null readiness verdict counts as a first measurement again, so the bound of five iterations
  holds for string verdicts only (`Pdca.NullVerdictsRunOn`); with those the default cap of ten is
  never reached (`Pdca.IterationsBounded`).
- A PDCA cycle paused during Do submits the whole plan again when it is resumed
  (`Pdca.DoPassMeaning`), and one that Act found stuck can only be aborted
  (`Pdca.StuckUntilAborted`).
- `TaskRunner.resume` also promotes a task that awaits approval, and cancelling a queued task
  leaves its end time unset (task_runner.py:350-355, 382-385).
- The capture thread writes its task's file not only every twenty lines: with the tail full it
  does so at every line from the hundredth on (`TaskRuns.PersistDue`).
- A cancelled task can run again after a crash, when a write of the capture thread landed after
  the cancellation (`TaskRuns.CancelUndoneByCrash`); `TaskRuns.CrashUndoesTerminal` says
  when exactly a crash undoes a terminal status.
- A rollback reports success without restoring the target in three cases: a marker or a copied
  directory that an earlier request with the same id left behind, and a handler that made a
  directory of a file (`Snapshots.OldMarkerDeletesTarget`, `Snapshots.OldCopyComesBack`,
  `Snapshots.FileBecomesDir`). `Snapshots.RollbackRestores` shows there are no others.
- A rejection is logged before its file is written and its record leaves memory, so a crash or a
  failure in between lets the request be decided, and logged, twice
  (`ExecutorAudit.TwoOutcomesOneIntent`); `ExecutorAudit.IntentsAccountedFor` is the account that
  always holds.
- Quotes do not protect a colon in a YAML list item (`YamlRoundTrip.ColonMakesMapping`).

## Model

| member | source | states |
|---|---|---|
| Cascade.RunFollowsTree | aigovclaw/agent_loop/loops/cascade_loop.py:70-144 | From any reachable state, through pauses and resumptions, a run that completes has executed, and recorded at their depths, exactly the first `budget` actions of the level-order listing of the cascade tree; the cap ends it only if the budget is negative or roots below depth 1 outnumber it |
| Cascade.FreshRun | aigovclaw/agent_loop/loops/base_loop.py:103-126 | An unpaused fresh run ends COMPLETED unless the iterations run out in that exact sense, and its reason is budget-exhausted if and only if the listing is longer than the budget |
| Cascade.ExecutedIsPrefix | aigovclaw/agent_loop/loops/cascade_loop.py:82-144 | At every moment the executed actions are a prefix of the listing, at most `budget` long, and `execute` was called once or twice for each |
| Cascade.NextLevel | aigovclaw/agent_loop/loops/cascade_loop.py:164-189 | A worked-off level is followed in the queue by the next level of the tree, or the listing is complete |
| Cascade.ExecuteHead | aigovclaw/agent_loop/loops/cascade_loop.py:106-144 | Executing the head of the queue and appending its children keeps the queue the next part of the listing |
| Cascade.DeeperExtends | aigovclaw/agent_loop/loops/cascade_loop.py:124-125 | A larger depth limit only appends to the listing |
| Cascade.ContributedInParts | aigovclaw/agent_loop/loops/cascade_loop.py:164-189 | An analysis contributes its dicts in order; one that raises or is no list contributes nothing |
| Cascade.ChildrenMeaning | aigovclaw/agent_loop/loops/cascade_loop.py:106-144 | An action has children only if the structured call, or after it the plain one, answers and the answer gives rise to a trigger: then those that the analysis of that trigger contributes |
| Cascade.RunAccounts | aigovclaw/agent_loop/loops/cascade_loop.py:106-200 | However a loop is run, paused and resumed, a record says failed if and only if both calls raised or deriving a trigger from the answer did, one about the analyzer precedes it if and only if that raised, and the calls made are exactly those of the executed actions |
| Cascade.StartOfTree | aigovclaw/agent_loop/loops/cascade_loop.py:150-162 | The initial analysis queues the roots of the tree |
| Cascade.StoppingTurn | aigovclaw/agent_loop/loops/cascade_loop.py:70-80 | A turn that stops the loop completes it with the listing executed up to the budget, or ends it at the cap only when the iterations cannot suffice |
| Cascade.HooksKeepConsistent | aigovclaw/agent_loop/loops/base_loop.py:81-97 | Pausing, resuming, aborting or completing keeps every invariant of the loop |
| Cascade.CascadeLoop.ShouldTerminate | aigovclaw/agent_loop/loops/cascade_loop.py:70-80 | Whether the loop stops, and the reason it records as a side effect |
| Cascade.CascadeLoop.Expand | aigovclaw/agent_loop/loops/cascade_loop.py:164-189 | The actions an analysis contributes go to the back of the queue one level deeper; a failing analyzer adds none |
| Cascade.CascadeLoop.InvokeExecutor | aigovclaw/agent_loop/loops/cascade_loop.py:191-200 | The outcome of the structured call or of the fallback, and how many calls that took |
| Cascade.CascadeLoop.ExecuteAction | aigovclaw/agent_loop/loops/cascade_loop.py:106-144 | The new state and record of executing one dequeued action |
| Cascade.CascadeLoop.Step | aigovclaw/agent_loop/loops/cascade_loop.py:82-144 | One step: initial analysis, a skip for depth or budget, or one execution |
| Cascade.CascadeLoop.Run | aigovclaw/agent_loop/loops/base_loop.py:103-126 | The driver loop computes the run that the theorems speak of |
| Cascade.CascadeLoop.Resume | aigovclaw/agent_loop/loops/base_loop.py:85-87 | Resuming makes a paused or waiting loop run and leaves any other status alone |
| GapResolution.RunFollowsPlan | aigovclaw/agent_loop/loops/gap_resolution.py:131-205 | From any consistent state a run completes with every gap exactly as the plan computes it, or stops at the cap only when the plan takes more attempts than the cap allows |
| GapResolution.FreshRun | aigovclaw/agent_loop/loops/gap_resolution.py:69-87 | With the default cap an unpaused run completes, every gap resolved or escalated, if and only if retries are 0 or more or there is at most one gap |
| GapResolution.DefaultCap | aigovclaw/agent_loop/loops/gap_resolution.py:69-87 | The default cap covers every plan under exactly that condition |
| GapResolution.ShapeOnTheWay | aigovclaw/agent_loop/loops/gap_resolution.py:137-205 | At every moment closed gaps form a prefix, only the first open gap has attempts, fewer than the limit, and attempts took one or two calls each |
| GapResolution.PlanCloses | aigovclaw/agent_loop/loops/gap_resolution.py:245-273 | Every planned gap ends resolved, or escalated with the retries used up and the user prompted exactly once if there is a broker |
| GapResolution.TriesMeaning | aigovclaw/agent_loop/loops/gap_resolution.py:176-205 | A gap's attempts end at its first verified one or at the limit |
| GapResolution.PlanMeaning | aigovclaw/agent_loop/loops/gap_resolution.py:143-225 | Each planned gap is resolved if and only if one of its attempts succeeds (an answer, from the plain call if the structured one raised, and a verifier that says yes), with the first that does; otherwise it has all its attempts and is escalated, a prompt that could not be emitted excepted |
| GapResolution.GivenCap | aigovclaw/agent_loop/loops/gap_resolution.py:69-87 | With a given cap other than 0 an unpaused run completes if and only if the plan takes no more attempts than that, and never makes more |
| GapResolution.RunCalls | aigovclaw/agent_loop/loops/gap_resolution.py:211-225 | Over every run the calls made are exactly those of its attempts |
| GapResolution.AttemptOnPlan | aigovclaw/agent_loop/loops/gap_resolution.py:143-205 | One attempt either closes the first open gap as planned or adds one fruitless attempt to it |
| GapResolution.GapResolutionLoop.ShouldTerminate | aigovclaw/agent_loop/loops/gap_resolution.py:131-135 | It stops exactly when no gap is open |
| GapResolution.GapResolutionLoop.NextOpenGap | aigovclaw/agent_loop/loops/gap_resolution.py:137-141 | The index of the first open gap |
| GapResolution.GapResolutionLoop.InvokeExecutor | aigovclaw/agent_loop/loops/gap_resolution.py:211-225 | The attempt's outcome and the calls it took |
| GapResolution.GapResolutionLoop.SurfaceToUser | aigovclaw/agent_loop/loops/gap_resolution.py:245-273 | Escalation prompts the user once, through a broker, for that gap alone |
| GapResolution.GapResolutionLoop.Step | aigovclaw/agent_loop/loops/gap_resolution.py:143-205 | One attempt on the first open gap, in place |
| GapResolution.GapResolutionLoop.Run | aigovclaw/agent_loop/loops/base_loop.py:103-126 | The driver loop computes the run that the theorems speak of |
| GapResolution.GapResolutionLoop.Resume | aigovclaw/agent_loop/loops/base_loop.py:85-87 | Resuming makes a paused or waiting loop run and leaves any other status alone |
| GapResolution.HooksKeepConsistent | aigovclaw/agent_loop/loops/base_loop.py:81-97 | Pausing, resuming, aborting or completing keeps every invariant of the loop |
| Pdca.PhaseAndHistoryAgree | aigovclaw/agent_loop/orchestrator.py:142-208 | In every state reachable from one start the history is iteration - 1 long in plan, do and check, iteration long in act and done, entry i carries iteration i + 1, and the iteration is within the cap |
| Pdca.StepProgress | aigovclaw/agent_loop/orchestrator.py:185-208 | An effective step pauses where it is, with one new prompt that is then the pending one, or strictly decreases a measure of remaining iterations and phase and prompts nobody |
| Pdca.BoundedAdvances | aigovclaw/agent_loop/orchestrator.py:185-208 | However steps, pauses, resumptions and aborts are mixed, at most five advances an iteration happen |
| Pdca.RanksRise | aigovclaw/agent_loop/orchestrator.py:473-482 | For string verdicts the readiness ranks before the latest entry strictly increase |
| Pdca.IterationsBounded | aigovclaw/agent_loop/orchestrator.py:352-415 | For string verdicts the iteration never exceeds the smaller of five and the cap, and the max-iterations branch is dead when the cap is five or more |
| Pdca.BoundReached | aigovclaw/agent_loop/orchestrator.py:313-385 | That bound is reached for every cap |
| Pdca.CapReached | aigovclaw/agent_loop/orchestrator.py:370-385 | For every cap of four or less string verdicts do reach the max-iterations branch |
| Pdca.NullVerdictsRunOn | aigovclaw/agent_loop/orchestrator.py:473-476 | Null verdicts take the cycle to any iteration up to the cap |
| Pdca.StuckUntilAborted | aigovclaw/agent_loop/orchestrator.py:352-415 | A cycle stuck in Act changes nothing more until it is aborted |
| Pdca.DoPassMeaning | aigovclaw/agent_loop/orchestrator.py:251-311 | A Do pass submits the plan in order up to and including the first request that awaits approval, pausing exactly then, and starts over when repeated |
| Pdca.PlansAreCarriedOut | aigovclaw/agent_loop/orchestrator.py:214-311 | Over every run of steps, pauses, resumptions and aborts: in Check, Act and Done the submissions end with all requests of what the planner last returned, in order |
| Pdca.OnlyDoSubmits | aigovclaw/agent_loop/orchestrator.py:251-311 | Nothing but a Do pass submits anything |
| Pdca.AllRequestsInParts | aigovclaw/agent_loop/orchestrator.py:256-260 | The requests of a plan are those of its milestones in order |
| Pdca.RequestsInParts | aigovclaw/agent_loop/orchestrator.py:256-260 | The requests of a milestone are its dicts in order, anything else is skipped |
| Pdca.VerdictsAreRecorded | aigovclaw/agent_loop/orchestrator.py:313-415 | Over every run the history holds, in order, the levels the assessor reported, a missing one as not-ready; and the cycle is done only on its last verdict: the terminal one, or an advancing one at the cap |
| Pdca.DeltaMeaning | aigovclaw/agent_loop/orchestrator.py:473-482 | A verdict improves or worsens by its place on the ladder of the four levels, an unknown or null one standing below it; the first, and one after a null, is a first measurement |
| Pdca.PauseHolds | aigovclaw/agent_loop/orchestrator.py:156-169 | A paused cycle stands still however often it is stepped, and resuming makes it go on where it was, its pending prompt dropped |
| Pdca.AbortIsFinal | aigovclaw/agent_loop/orchestrator.py:171-183 | An aborted cycle never does anything again |
| Pdca.PdcaCycle.StartCycle | aigovclaw/agent_loop/orchestrator.py:142-154 | Starting puts the cycle at iteration one of its planning phase and changes nothing else |
| Pdca.PdcaCycle.StepCycle | aigovclaw/agent_loop/orchestrator.py:185-208 | One step runs the current phase in place, and nothing when paused or over; `Pdca.PlansAreCarriedOut` and `Pdca.VerdictsAreRecorded` say what steps come to |
| Pdca.PdcaCycle.RunPlan | aigovclaw/agent_loop/orchestrator.py:214-249 | Plan caches the milestones and goes on to Do, or to Check if there are none, or aborts; `Pdca.PlansAreCarriedOut` says that the plan is then submitted whole |
| Pdca.PdcaCycle.RunDo | aigovclaw/agent_loop/orchestrator.py:251-311 | The nested submission loop makes exactly the submissions of a Do pass |
| Pdca.PdcaCycle.RunCheck | aigovclaw/agent_loop/orchestrator.py:313-350 | Check appends one entry with the verdict and its change, or aborts |
| Pdca.PdcaCycle.RunAct | aigovclaw/agent_loop/orchestrator.py:352-415 | Act finishes, goes on to the next iteration, stops at the cap or pauses |
| Pdca.PdcaCycle.PauseCycle | aigovclaw/agent_loop/orchestrator.py:156-161 | Pausing changes the flag alone |
| Pdca.PdcaCycle.ResumeCycle | aigovclaw/agent_loop/orchestrator.py:163-169 | Resuming clears the flag alone |
| Pdca.PdcaCycle.AbortCycle | aigovclaw/agent_loop/orchestrator.py:171-183 | Aborting changes the phase alone |
| FlaggedIssues.MoveShortensLife | jules/dispatcher.py:68-79 | Every allowed transition shortens an issue's remaining life, the one from failed to queued when the retry count is raised with it |
| FlaggedIssues.SaveLookup | jules/dispatcher.py:245-266 | A saved issue is found under its id and no other record changes |
| FlaggedIssues.InStateMembers | jules/dispatcher.py:268-280 | Listing by state gives exactly the issues in that state |
| FlaggedIssues.WithoutFacts | jules/dispatcher.py:282-298 | Archiving removes exactly the record of that id |
| FlaggedIssues.WithoutLookup | jules/dispatcher.py:282-298 | That id is not found afterwards and every other is, unchanged |
| FlaggedIssues.FlaggedIssue.Transition | jules/dispatcher.py:203-215 | A transition happens if and only if the graph allows it, and otherwise changes nothing |
| Dispatch.ParallelismBound | jules/dispatcher.py:586-666 | Over every run of enqueue, dispatch, poll and terminal handling, dispatched plus in-progress issues never exceed max(0, max_parallel) |
| Dispatch.FiniteLives | jules/dispatcher.py:730-749 | An issue is dispatched at most once more than it may be retried and makes boundedly many transitions; its final state is recorded if and only if it is in a terminal state |
| Dispatch.DispatchSelects | jules/dispatcher.py:586-666 | A pass dispatches exactly the queued issues with fewer than `slots` ahead of them in stable (priority, created_at) order and a session created for them |
| Dispatch.InterruptedDispatchSelects | jules/dispatcher.py:586-666 | Whether or not an error interrupts it, a pass dispatches exactly those with no issue ahead of them at which it crashed |
| Dispatch.PriorityIsKept | jules/dispatcher.py:604-618 | If a pass, interrupted or not, dispatches an issue, it dispatches every queued one whose turn comes first and that gets a session: every "high" one before any other, "low" ones after all others, otherwise the earlier created, ties in store order |
| Dispatch.PrecedesMeaning | jules/dispatcher.py:611-613 | The order that the other laws speak of is that one |
| Dispatch.DispatchCompletes | jules/dispatcher.py:586-666 | A pass, dry or not, ends without an error if and only if none of the first `slots` issues makes it crash |
| Dispatch.PollCompletes | jules/dispatcher.py:670-692 | A poll ends without an error if and only if fetching no feed crashes and no item has the wrong shape: what well-shaped items say never raises |
| Dispatch.SortInOrder | jules/dispatcher.py:604-613 | The queue is sorted by priority and creation time, in the order that `Dispatch.PrecedesMeaning` spells out |
| Dispatch.AheadIsPosition | jules/dispatcher.py:604-613 | An issue's place in the sorted queue is the number of issues ahead of it, ties in store order |
| Dispatch.FeedAllowed | jules/dispatcher.py:694-726 | No activity feed, whatever it holds, makes polling attempt a forbidden transition |
| Dispatch.FailureDecides | jules/dispatcher.py:694-749 | The first item of a feed that reports a failure decides: a retriable one requeues the issue with one more retry if it has any left, any other escalates it |
| Dispatch.QuietFeedDecides | jules/dispatcher.py:694-711 | Without a failure a pull request anywhere in the feed makes the issue a draft one, and failing that anything but set-up starts its work |
| Dispatch.LastUrlStays | jules/dispatcher.py:705-711 | The link an issue keeps is the last one given by a pull request of such a feed |
| Dispatch.ContainsMeaning | jules/dispatcher.py:705-712 | A kind contains a word if and only if the word occurs somewhere in it |
| Dispatch.PollDecides | jules/dispatcher.py:670-692 | A poll that reads every feed saves exactly the active issues whose feed has arrived and changed their state, as the feed leaves them |
| Dispatch.FinishedMeaning | jules/dispatcher.py:751-782 | Which outcomes can be recorded from which state, and that the issue then carries it |
| Dispatch.FirstOfSession | jules/dispatcher.py:760-766 | A session stands for the first record in the listing that has it |
| Dispatch.ResolveDecides | jules/dispatcher.py:751-782 | Resolving closes that record if the outcome can be recorded, and changes no other |
| Dispatch.ArchiveDecides | jules/dispatcher.py:282-298 | Archiving removes exactly that record if it is terminal, and changes no other |
| Dispatch.RunKeeps | jules/dispatcher.py:559-782 | Every operation keeps the store sorted, its issues well kept and the parallelism bound |
| Dispatch.PollKeeps | jules/dispatcher.py:670-692 | So does polling, whatever the feeds hold |
| Dispatch.ResolveKeeps | jules/dispatcher.py:751-782 | So does terminal handling |
| Dispatch.Dispatcher.EnqueueIssue | jules/dispatcher.py:559-582 | A flagged issue is queued and saved; any other raises and changes nothing |
| Dispatch.Dispatcher.DispatchQueued | jules/dispatcher.py:586-666 | The pass over the queue in place, a dry run without a client, and whether it comes to its end |
| Dispatch.Dispatcher.PollInProgress | jules/dispatcher.py:670-692 | The pass over the active issues in place, nothing without a client, and whether it comes to its end |
| Dispatch.Dispatcher.ReactTo | jules/dispatcher.py:694-726 | What one activity does to an issue and the store |
| Dispatch.Dispatcher.AdvanceFromActivities | jules/dispatcher.py:694-726 | What a feed does to an issue, stopping at the first handled failure |
| Dispatch.Dispatcher.HandleTerminalFailure | jules/dispatcher.py:730-749 | A retriable failure below the limit requeues the issue, any other escalates it |
| Dispatch.Dispatcher.HandleTerminal | jules/dispatcher.py:751-782 | The outcome of a session closes its issue; it raises exactly for an outcome that is not terminal, an unknown session or a forbidden transition |
| Dispatch.Dispatcher.ArchiveIssue | jules/dispatcher.py:282-298 | Only a terminal issue is archived; any other, or an unknown id, raises |
| TaskRuns.EveryInterleaving | hub/v2_server/task_runner.py:184-274 | In every interleaving of calls, capture threads, late writes and crashes a process is started at most once, the file never ranks ahead of memory, and they are equal when no capture thread runs |
| TaskRuns.StatusMovesForward | hub/v2_server/task_runner.py:327-436 | Without a crash a status only moves forward, a terminal one is never left whatever the exit code, and a finalised task does not change at all, on disk either |
| TaskRuns.ExitDecides | hub/v2_server/task_runner.py:236-274 | When a task's process exits with a code, then for good, whatever follows, crashes included, memory and file hold that code, the status cancelled if it was cancelled while it ran and otherwise succeeded or failed by the code, its last hundred lines, and its last line as summary |
| TaskRuns.SucceededOrFailed | hub/v2_server/task_runner.py:184-274 | Over every run a task has succeeded if and only if its process exited with 0 and it had not been cancelled, and failed if and only if it exited otherwise uncancelled or there was no executable |
| TaskRuns.RunTellsCancelled | hub/v2_server/task_runner.py:369-410 | While the capture thread runs, the task is marked cancelled if and only if a cancellation took effect since the last crash |
| TaskRuns.TailIsLastLines | hub/v2_server/task_runner.py:236-250 | The tail a running task shows is the last hundred lines its thread read, or all of them |
| TaskRuns.PersistDue | hub/v2_server/task_runner.py:249-250 | A line makes a write due if and only if it is a twentieth one or at least the hundredth |
| TaskRuns.ActResults | hub/v2_server/task_runner.py:184-436 | Where each call and each block of the capture thread leads from each status |
| TaskRuns.LifeOfATask | hub/v2_server/task_runner.py:136-274 | Undisturbed, a task goes from its request, over its approval if it needs one, to the end its exit code decides, for every output |
| TaskRuns.CrashUndoesTerminal | hub/v2_server/task_runner.py:97-118 | A crash at any point of any run, inside the start block too, undoes a terminal status if and only if a record read before the cancellation landed after it and nothing landed or was finalised since |
| TaskRuns.RunTellsWrites | hub/v2_server/task_runner.py:236-289 | The run alone tells whether the file hides a cancellation: exactly when such a late write landed |
| TaskRuns.CrashEffect | hub/v2_server/task_runner.py:97-118 | Without a capture thread a task comes back as its record was, reaped or promoted; it can fall back only if cancelled under a late write |
| TaskRuns.RestartInterrupts | hub/v2_server/task_runner.py:97-118 | After any run a restart interrupts exactly the tasks whose file says running or paused and whose process is gone, so every task that then runs has a live process |
| TaskRuns.CancelUndoneByCrash | hub/v2_server/task_runner.py:236-289 | A concrete run in which a cancelled task runs again after a crash |
| TaskRuns.StepKeepsInv | hub/v2_server/task_runner.py:136-289 | Every atomic block keeps the invariant of every task |
| TaskRuns.TaskRunner.ActIsStep | hub/v2_server/task_runner.py:280-289 | A block that changes one task as the machine does is a step of the machine |
| TaskRuns.TaskRunner.RestartIsStep | hub/v2_server/task_runner.py:97-118 | A restart is a crash step of the machine |
| TaskRuns.TaskRunner.EnqueueTask | hub/v2_server/task_runner.py:136-182 | A new task is saved queued or awaiting approval |
| TaskRuns.TaskRunner.StartTask | hub/v2_server/task_runner.py:184-234 | Only a queued task without a process is started; any other raises, as does a spawn error |
| TaskRuns.TaskRunner.PauseTask | hub/v2_server/task_runner.py:327-343 | Pausing a running task; an unknown one raises |
| TaskRuns.TaskRunner.ResumeTask | hub/v2_server/task_runner.py:345-367 | Resuming a paused task, or promoting one that awaits approval; an unknown one or a spawn error raises |
| TaskRuns.TaskRunner.CancelTask | hub/v2_server/task_runner.py:369-410 | Cancelling, with and without a process; an unknown task raises |
| TaskRuns.TaskRunner.ApproveTask | hub/v2_server/task_runner.py:412-423 | Approval queues a task that awaits it, and exactly then it is to be started; an unknown task raises |
| TaskRuns.TaskRunner.RejectTask | hub/v2_server/task_runner.py:425-436 | Rejection cancels a task that awaits approval; an unknown task raises |
| TaskRuns.TaskRunner.CaptureLine | hub/v2_server/task_runner.py:236-250 | A line goes to the rolling tail, and every twentieth makes a write due |
| TaskRuns.TaskRunner.CaptureReadRecord | hub/v2_server/task_runner.py:280-289 | The unlocked write first reads the record |
| TaskRuns.TaskRunner.CaptureLand | hub/v2_server/task_runner.py:280-289 | and lands later, whatever happened in between |
| TaskRuns.TaskRunner.CaptureExit | hub/v2_server/task_runner.py:252-274 | Finalising records the exit code and ends the task as `TaskRuns.ExitDecides` says |
| TaskRuns.TaskRunner.ReapOrphansOnStartup | hub/v2_server/task_runner.py:97-118 | Every record is read back, and an active task without its process becomes interrupted |
| AuthorityPolicy.ModeIsAuthorised | aigovclaw/action_executor/authority_policy.py:67-118 | Each of the three modes exactly: autonomous with an opt-in and an explicit or unguarded default choice of it, take-resolving-action with an explicit or unguarded default choice, asking in all other cases |
| AuthorityPolicy.ReasonIsFirstCause | aigovclaw/action_executor/authority_policy.py:97-118 | A reason is given if and only if the mode is not the one asked for, and names the first cause: destructive, external, no opt-in |
| AuthorityPolicy.NoOverrideDecides | aigovclaw/action_executor/authority_policy.py:89-95 | Without an override for the plugin and action there is no explicit mode |
| AuthorityPolicy.FirstOverrideDecides | aigovclaw/action_executor/authority_policy.py:89-95 | Only the first override for a plugin and action counts, valid or not |
| AuthorityPolicy.Resolve | aigovclaw/action_executor/authority_policy.py:67-118 | The loop and the guards compute the mode and the first reason of a downgrade; the limit is the policy's for the action, or else the action's own |
| ActionExecution.AtMostOncePerSubmission | aigovclaw/action_executor/executor.py:163-226 | With crashes and reloads between any two small steps an id's handler really runs at most as often as it was submitted |
| ActionExecution.RejectIsFinal | aigovclaw/action_executor/executor.py:194-226 | After `reject` returned the handler never runs for that id unless it is submitted again |
| ActionExecution.ReloadIsIdentity | aigovclaw/action_executor/executor.py:436-488 | Between completed operations of such a run the pending map equals the undecided files, so a reload changes nothing |
| ActionExecution.ReloadAfterRestart | aigovclaw/action_executor/executor.py:457-488 | The same whatever failed before the last restart |
| ActionExecution.ReloadAfterFailure | aigovclaw/action_executor/executor.py:280-310 | One more failure makes a reload change something if and only if it comes in the middle of those writes |
| ActionExecution.RunKeepsSync | aigovclaw/action_executor/executor.py:280-310 | Memory and files agree up to the step under way, through every run with any crashes in which no operation fails between its change of memory and its change of the file, or back |
| ActionExecution.RunSpends | aigovclaw/action_executor/executor.py:90-226 | Real runs plus what is outstanding never exceed submissions, over every run |
| ActionExecution.RunFinishes | aigovclaw/action_executor/executor.py:312-430 | The whole of a handler run is the run of its small steps; `ExecutorAudit.OutcomesAreAnswers` says what its entry tells |
| ActionExecution.QueueFinishes | aigovclaw/action_executor/executor.py:280-310 | The whole of queueing is the run of its small steps |
| ActionExecution.DecisionFinishes | aigovclaw/action_executor/executor.py:163-226 | The whole of a decision is the run of its small steps |
| ActionExecution.ActionExecutor.Execute | aigovclaw/action_executor/executor.py:90-161 | Validation, rate limit, intent, then queue or run, as the small steps do it; and the status in every case: failed if invalid or the handler raised, skipped if over the limit or a dry run that returned, pending if it has to ask, executed otherwise |
| ActionExecution.ActionExecutor.Approve | aigovclaw/action_executor/executor.py:163-192 | An unknown id, and a decided one, raises; a pending one is decided and run, and the status says whether the handler returned |
| ActionExecution.ActionExecutor.Reject | aigovclaw/action_executor/executor.py:194-226 | An unknown id raises; a pending one is decided and dropped |
| ActionExecution.ActionExecutor.RunHandler | aigovclaw/action_executor/executor.py:312-430 | A run and its one outcome event; executed, dry-run and failed by whether the handler returned and whether the run is dry |
| ActionExecution.ActionExecutor.EnqueueForApproval | aigovclaw/action_executor/executor.py:280-310 | The record goes to memory and to its file |
| ExecutorAudit.WholeLogBalances | aigovclaw/action_executor/executor.py:90-226 | Between operations of any run, crashes and failures included, intents and undone decisions equal completions, failures, dry runs, rejections, pending, overwritten and lost requests; nothing is overwritten if no pending id is submitted again, and nothing undone or lost if operations are not cut short |
| ExecutorAudit.IntentsAccountedFor | aigovclaw/action_executor/executor.py:90-226 | At every moment of every run, for each id: intents and undone decisions equal outcomes, what is owed, overwritten and lost |
| ExecutorAudit.BooksBalance | aigovclaw/action_executor/executor.py:280-310 | Between operations of any run an id's books balance if and only if as many decisions were undone as intents were overwritten or lost |
| ExecutorAudit.OrderlyBooksBalance | aigovclaw/action_executor/executor.py:457-488 | Across restarts between operations they balance if and only if nothing was overwritten |
| ExecutorAudit.OutcomesFollowIntentsExactly | aigovclaw/action_executor/executor.py:194-226 | No prefix of the log has more outcomes than intents of an id if and only if at every moment its undone decisions are covered by intents owed, overwritten or lost |
| ExecutorAudit.OutcomesWithinIntents | aigovclaw/action_executor/executor.py:194-226 | The same for any one moment |
| ExecutorAudit.OutcomesFollowIntents | aigovclaw/action_executor/executor.py:194-226 | In every prefix of the log an id has no more outcomes than intents, unless an operation failed between the log entry of a rejection and the removal of its record from memory, or a crash came between that entry and its file |
| ExecutorAudit.SettledOutcomes | aigovclaw/action_executor/executor.py:202-214 | For a settled id with nothing overwritten or lost that is the exact condition |
| ExecutorAudit.TwoOutcomesOneIntent | aigovclaw/action_executor/executor.py:202-214 | For every policy and id a run, with a crash between the log entry of a rejection and its file, in which one intent has two outcomes |
| ExecutorAudit.NoUnauthorisedRun | aigovclaw/action_executor/executor.py:137-192 | In every prefix a request's real runs are covered by unasked intents and approvals of that very request; approvals follow asking intents; git-commit-and-push never has an unasked intent |
| ExecutorAudit.OutcomesAreAnswers | aigovclaw/action_executor/executor.py:312-430 | At every moment of every run a request's completions are exactly the calls of its handler, not dry, that returned, its dry-run entries the dry ones that returned, and its failures those that raised, less the one about to be logged and those an interruption cut off |
| ExecutorAudit.LogSaysTrue | aigovclaw/action_executor/executor.py:90-161 | Over every run each intent is of a complete request for a known action and names the mode the policy gives it, git-commit-and-push asking; each invalid entry is of an incomplete one |
| ExecutorAudit.PrefixReached | aigovclaw/action_executor/executor.py:90-226 | The trace only grows: each of its prefixes is the trace of a prefix of the run |
| AuditLog.SlidingWindow | aigovclaw/action_executor/safety.py:205-230 | Under a monotone clock any one-hour window holds at most `limit` intents of a plugin and action, over every run |
| AuditLog.RefusesWhenHourIsFull | aigovclaw/action_executor/safety.py:227-230 | The limiter refuses if and only if the last hour is full |
| RateLimitedRuns.WindowHolds | aigovclaw/action_executor/executor.py:115-156 | In runs of the executor that ask the limiter about their own log, with crashes and failures anywhere, any one-hour window of the log holds at most `limit` intents of a plugin and action |
| RateLimitedRuns.TurnedAwayWhenFull | aigovclaw/action_executor/executor.py:115-130 | After any such run a well-formed request is turned away if and only if the hour before it already holds that many |
| RateLimitedRuns.RunIsExecutorRun | aigovclaw/action_executor/executor.py:90-161 | Such a run is a run of the executor, so all theorems about those hold of it |
| RateLimitedRuns.RunIsLimiterRun | aigovclaw/action_executor/safety.py:162-178 | and its log is what the limiter's attempts and other events write |
| RateLimitedRuns.LogHoldsIntents | aigovclaw/action_executor/executor.py:140-156 | The day files hold exactly the intents of the executor's trace |
| AuditLog.LastTwoSuffice | aigovclaw/action_executor/safety.py:180-202 | Counting the last two day files counts the whole log |
| AuditLog.WriteKeepsChronology | aigovclaw/action_executor/safety.py:162-178 | Writing keeps the day files ordered and each entry in a file no later than the clock allows |
| AuditLog.CountAllNotOlder | aigovclaw/action_executor/safety.py:211-225 | Counting intents among recent entries is counting recent intents |
| AuditLog.AuditLogger.Write | aigovclaw/action_executor/safety.py:158-178 | The entry is appended to its day's file, created if need be |
| AuditLog.AuditLogger.RecentEvents | aigovclaw/action_executor/safety.py:180-202 | The entries of the last two files that are not older than the cutoff, in order |
| AuditLog.AuditLogger.CountRecent | aigovclaw/action_executor/safety.py:211-225 | The number of intents of a plugin and action in the last hour that those files hold |
| AuditLog.AuditLogger.IsOverLimit | aigovclaw/action_executor/safety.py:227-230 | It refuses exactly when the last hour is full |
| Snapshots.RollbackRestores | aigovclaw/action_executor/safety.py:112-137 | A successful rollback restores the target's whole tree, absence included, if and only if the target was absent, or there was no old marker, no old copy with anything the target lacks, and the handler made no directory of a file |
| Snapshots.RollbackSucceeds | aigovclaw/action_executor/safety.py:112-137 | A request's rollback reports success if and only if, on the disk the handler left, there is a marker, or the copy is a file, only directories are on the way to the target and none blocks the landing, or the copy is a directory and no file is in its way; always if the target had not existed |
| Snapshots.SnapshotSucceeds | aigovclaw/action_executor/safety.py:94-109 | With a fresh id a snapshot succeeds if and only if no file is in the way of its directory and the target does not contain it |
| Snapshots.MadeDirsSucceeds | aigovclaw/action_executor/safety.py:97-97 | Making a directory succeeds if and only if nothing but directories is on the way |
| Snapshots.HandlerUndone | aigovclaw/action_executor/executor.py:362-410 | A rolled-back handler that wrote below its target and made directories on the way there leaves every other path, and below a restorable target every path, as before the request, the snapshot aside |
| Snapshots.RollbackFrame | aigovclaw/action_executor/safety.py:112-137 | Successful or not, rollback changes nothing outside the target but adding directories on the way to it |
| Snapshots.SnapshotFrame | aigovclaw/action_executor/safety.py:94-109 | A snapshot changes nothing apart from its own directory and the way to it |
| Snapshots.CopyIsSame | aigovclaw/action_executor/safety.py:105-108 | Copying a tree over whatever is there makes it the same there if and only if every path that was there is in the source, as the same kind |
| Snapshots.SnapshotHoldsDir | aigovclaw/action_executor/safety.py:105-108 | A directory's copy is the same tree if and only if the directory covers what an earlier use of the id left |
| Snapshots.SnapshotHoldsFile | aigovclaw/action_executor/safety.py:105-108 | A file's copy is the same file, alone, if and only if no directory of an earlier use of the id is in its place |
| Snapshots.SnapshotKeepsWellFormed | aigovclaw/action_executor/safety.py:94-109 | A snapshot leaves a file system in which every entry lies in a directory |
| Snapshots.SnapshotApart | aigovclaw/action_executor/safety.py:94-109 | A target that contains its own snapshot directory makes the snapshot raise |
| Snapshots.OldMarkerDeletesTarget | aigovclaw/action_executor/safety.py:118-125 | A concrete request whose rollback deletes a target that existed |
| Snapshots.FileBecomesDir | aigovclaw/action_executor/safety.py:128-130 | A concrete request whose rollback reports success and leaves a directory for a file |
| Snapshots.OldCopyComesBack | aigovclaw/action_executor/safety.py:107-108 | A concrete request whose rollback reports success and restores leftovers of an earlier request along with the target |
| Snapshots.MadeDirsFacts | aigovclaw/action_executor/safety.py:94-137 | Making directories adds directories on the way and nothing else |
| Snapshots.Workspace.SnapshotTarget | aigovclaw/action_executor/safety.py:94-109 | The snapshot in place, and when it raises |
| Snapshots.Workspace.Rollback | aigovclaw/action_executor/safety.py:112-137 | The rollback in place, as the function that `Snapshots.RollbackSucceeds` and `Snapshots.RollbackRestores` are about |
| Snapshots.Workspace.RunMutatingHandler | aigovclaw/action_executor/executor.py:362-410 | The status and the disk after a real run, for every handler that spares the snapshot on the disk it is given: executed if it returned, and otherwise rolled back exactly when the disk allows it, the target restored under exactly the conditions above |
| Snapshots.FileUpdateSpares | aigovclaw/action_executor/handlers/file_update.py:108-109 | The file-update handler is one, on every disk, and makes no directory of a file |
| Snapshots.FileUpdateOutcome | aigovclaw/action_executor/handlers/file_update.py:108-109 | It returns if and only if it is to succeed, no file is in the way and the target is no directory; if it raises, the rollback succeeds unless an earlier use of the id left a directory in the place of a file's copy |
| Snapshots.Workspace.RunFileUpdate | aigovclaw/action_executor/handlers/file_update.py:80-115 | With a fresh id a file update that raises, whatever the reason, is rolled back and leaves its target as it was; with any id it restores its file if and only if no earlier use left a marker or a copy with more in it |
| RequestIds.LaterIdSortsAfter | aigovclaw/action_executor/safety.py:47-67 | Below 2^50 ms ids sort by time first and then by their 80 random bits, and are equal exactly when both are |
| RequestIds.TimePartOrder | aigovclaw/action_executor/safety.py:56-61 | The ten-character prefix is injective and ordered as time is, below 2^50 ms |
| RequestIds.TimePartWraps | aigovclaw/action_executor/safety.py:56-61 | From 2^50 ms on the prefix starts again from zero |
| RequestIds.DigitsOrder | aigovclaw/action_executor/safety.py:55-66 | Digit strings of any length order as the numbers do modulo their range |
| RequestIds.RequestId | aigovclaw/action_executor/safety.py:47-67 | Ids are 26 characters of the alphabet |
| RequestIds.NewRequestId | aigovclaw/action_executor/safety.py:47-67 | The two loops build that id |
| RequestIds.DigitLoop | aigovclaw/action_executor/safety.py:58-60 | Masking and shifting from the right gives the last digits |
| DeepMerge.MergeByPaths | aigovclaw/action_executor/handlers/file_update.py:34-40 | Path by path: the override wins wherever it has something, hides what lies behind its scalars and arrays, and leaves every other path of the base |
| DeepMerge.PathsDecide | aigovclaw/action_executor/handlers/file_update.py:34-40 | Values that agree on every path are equal, so the path law determines merging |
| DeepMerge.NoChange | aigovclaw/action_executor/handlers/file_update.py:34-40 | A merge changes nothing if and only if the base has all of the override already |
| DeepMerge.MergeTwice | aigovclaw/action_executor/handlers/file_update.py:34-40 | Merging twice is merging once |
| DeepMerge.MergeSelf | aigovclaw/action_executor/handlers/file_update.py:34-40 | Merging a value with itself gives it back |
| DeepMerge.EmptyUpdate | aigovclaw/action_executor/handlers/file_update.py:34-40 | The empty object is the identity on objects and on nothing else |
| DeepMerge.NotAssociative | aigovclaw/action_executor/handlers/file_update.py:34-40 | Merging is not associative |
| DeepMerge.DeepMerge | aigovclaw/action_executor/handlers/file_update.py:34-40 | The loop over the override's items computes the merge |
| DeepMerge.MergeJson | aigovclaw/action_executor/handlers/file_update.py:50-59 | The merged file, or the error for updates that are no object or a file that is not JSON, in that order |
| DeepMerge.UpdateSettles | aigovclaw/action_executor/handlers/file_update.py:50-59 | An accepted update leaves an object that holds all of it, and applying it again changes nothing |
| YamlRoundTrip.RoundTrip | aigovclaw/action_executor/authority_policy.py:142-243 | Parsing what the two-space printer prints gives every supported document back, key order included |
| YamlRoundTrip.BlockBack | aigovclaw/action_executor/authority_policy.py:159-190 | A printed block is read back whole at any depth and the lines after it are left alone |
| YamlRoundTrip.EntriesBack | aigovclaw/action_executor/authority_policy.py:170-190 | So are the entries of a mapping |
| YamlRoundTrip.ItemsBack | aigovclaw/action_executor/authority_policy.py:192-221 | So are the items of a list |
| YamlRoundTrip.RawLinesBack | aigovclaw/action_executor/authority_policy.py:149-155 | Indentation and text are recovered from raw lines |
| YamlRoundTrip.PrintedLinesAreLines | aigovclaw/action_executor/authority_policy.py:150-150 | No printed line holds a line break or a comment sign |
| YamlRoundTrip.CommentsIgnored | aigovclaw/action_executor/authority_policy.py:150-153 | A comment at the end of any line, and a line blank up to its comment, change nothing |
| YamlRoundTrip.ColonMakesMapping | aigovclaw/action_executor/authority_policy.py:203-219 | A string item with a colon, bare or quoted, reads as a mapping |
| YamlText.ScalarBack | aigovclaw/action_executor/authority_policy.py:223-241 | A printed scalar is read back as itself: null, booleans, integers, the empty list, and strings, which are left bare where the parser reads them as themselves and quoted elsewhere |
| YamlText.IntTextBack | aigovclaw/action_executor/authority_policy.py:234-237 | A printed integer, negative ones included, is read back as itself |
| YamlText.ScalarKinds | aigovclaw/action_executor/authority_policy.py:223-241 | Which texts read as null, as a truth value whatever their capitals, and as a list; any other is a number if it reads as one, or else a string, less its quotes |
| YamlText.InlineListBack | aigovclaw/action_executor/authority_policy.py:230-233 | Printed scalars in brackets, with commas between them, read as the list of them |
| YamlText.UnderscoreIgnored | aigovclaw/action_executor/authority_policy.py:234-235 | Underscores between digits do not change a number |
| YamlText.SignRead | aigovclaw/action_executor/authority_policy.py:234-235 | A number may have a sign of either kind |
| YamlText.PutMeaning | aigovclaw/action_executor/authority_policy.py:170-190 | A repeated key keeps its place and takes the last value |
| FallbackYaml.Parse | aigovclaw/action_executor/authority_policy.py:142-243 | On every list of lines the parser halts with the value its specification gives |
| FallbackYaml.Parser.ParseBlock | aigovclaw/action_executor/authority_policy.py:159-168 | The value and the new cursor of a block |
| FallbackYaml.Parser.ParseMap | aigovclaw/action_executor/authority_policy.py:170-190 | The mapping loop, with its shared cursor |
| FallbackYaml.Parser.ParseList | aigovclaw/action_executor/authority_policy.py:192-221 | The list loop, with its shared cursor |
| FallbackYaml.Parser.ParseItemMap | aigovclaw/action_executor/authority_policy.py:204-217 | The loop over the further keys of an item's mapping |
| FallbackYaml.ReadAll | aigovclaw/action_executor/authority_policy.py:149-155 | The loop over raw lines cuts comments, drops blank lines and measures indentation |
| FallbackYaml.BlockLeavesSuffix | aigovclaw/action_executor/authority_policy.py:159-168 | What is left ahead of the cursor is the end of what was ahead before: it never goes back or jumps |

## Left out

- ValidationLoop, the skill registry, MCP routing, health counters and envelope checks: each states facts of one branch only.
- The hub's pages, its HTTP server, CLIs, notification delivery, git subprocesses and plugin imports: oracles that return or fail, or not modelled at all.
- JulesClient, prompt rendering and the classification of failures by keyword: the failure class is an arbitrary input.
- Thread races inside ActionExecutor: the code does not hold its lock across `approve` and `reject`, so the model lets one operation finish, fail or crash before the next begins.
- ActionExecutor and TaskRunner writes to disk: each whole-file write is taken to succeed and to be atomic.
- `snapshot_target` raising inside a request: `Snapshots` models when it raises, `ActionExecution` takes it to succeed.
- `action_builder`, milestone records that are not dictionaries and audit emission that raises: not modelled in the loops and the PDCA cycle.
- Event texts, timestamps as strings, signatures and JSON or YAML files as text: events and records are datatypes, timestamps are whole seconds.
- Signals, grace periods and escalation from SIGTERM to SIGKILL: the process may exit at any moment with any code.
- Generated ids are taken to be unique, and free of characters that file names do not allow.
- FlaggedIssues.WithoutFacts: the moved file in the archive directory is not modelled, only its removal from the store.
- Snapshots.RollbackRestores: leaves out a target inside the request's own snapshot directory, where no handler can both write its target and spare the snapshot; file modes, times and symbolic links are not modelled.
- Snapshots.Workspace.SnapshotTarget: what a snapshot that raises midway has already copied is not modelled.
- ActionExecution.ActionExecutor.RunHandler: a raising handler gives the status failed; whether it was rolled back is the outcome of `Snapshots.Workspace.RunMutatingHandler`.
- Snapshots.HandlerUndone: directories that the handler made above its target stay, as the code never removes them.
- RequestIds.LaterIdSortsAfter: the clock is never negative.
- DeepMerge.MergeJson: reading and printing JSON is not modelled, nor is the merge-yaml mode, which depends on PyYAML.
- FallbackYaml.Parse: takes the lines as already split, and integers in ASCII digits without the interpreter's limit on their length.
- YamlRoundTrip.RoundTrip: strings hold no comment sign or line break, those in lists no colon, keys are trimmed and hold no colon and do not begin like an item; lists in lists, mappings nested in items and an empty root, which reads as nothing, are not supported by the parser itself.
- The Hub's approval-queue files: decisions are recorded there even when the runner call did nothing, so no tight agreement holds.
