# Verification of the agent team's state machines

The repository is an approval-gated job orchestrator. A controller keeps tasks, jobs, approvals and
operations in one database; workers, a publisher on GitHub, a sender on Discord and a supervisor on the
host act on them and may fail at any call. This project models the state machines that have to survive
this, and proves what they promise for every run.

Time is an integer that does not go back. A database transaction is one step; a step outside the
database is one call, which may be refused, or take effect and lose its response. Hashes, commits and
model answers are opaque values. Where the code changes rows step by step, a specification function says
what the step does, the theorems are about runs of these functions, and a class whose methods write the
rows in the code's order is proved to do exactly that.

| module | what it models |
|---|---|
| `Domain` | task states, jobs and identities, shared by the modules below |
| `Dispatcher`, `DispatcherSafety`, `DispatcherRuns`, `DispatcherServes`, `Engine` | claims, fences, leases, caps, budgets, what a claim serves, and every recovery of the job dispatcher |
| `Release`, `ReleaseOutcomes`, `LostWrite`, `Supervisor` | the release protocol between the controller and the host |
| `Workflow`, `WorkflowSafety`, `WorkflowTables`, `WorkflowService` | requirements, plans and their single-use approvals |
| `MergeGate`, `MergeRuns`, `MergeController` | the merge gate, what feeds it, and the merge part of reconcile |
| `Publishing`, `Publisher` | the idempotent publisher against a git-like store |
| `Commands`, `CommandTargets`, `TaskService` | owner commands, where they lead, their replays, and what stopping a task guarantees |
| `Splitting`, `Delivery` | lossless splitting and exactly-once posting |
| `Dialogue`, `DialogueTurns` | termination, ends and bounds of the specialist dialogue |
| `Redaction` | the interval merge of redaction against a position-wise reference |

`dafny verify dfyconfig.toml` checks the whole project.

## Where the obvious claim does not hold

The model follows the code. In these places a natural claim, some of them made by comments or messages of
the code itself, is false; a lemma shows the failure and another one says exactly when the claim holds.

- Running jobs of privileged roles are not capped: a consult is admitted as read-only and counted by its
  role. `ConsultsUncapped` builds such runs for every size, `PrivilegedOverCap` says when the cap is passed,
  and `CappedWithoutConsults` that it never is while nobody asks a privileged role for a consult.
- The fence of a repository lease is not monotone: `LeaseFenceRestarts` shows it, `NextTakeIff` says exactly
  when it grows. The fence of a job is.
- "Retried once after a stall", as the message of `recover_stalled_v2` says, fails for implement and fix,
  whose start moves the version that recorded the retry: `SecondStall`. Only the budget ends those retries.
- A replayed answer is not always without effect: one accepted branch returns before its event is
  recorded. `EarlyReplay` shows what the replay does, `ReplayIff` when it is harmless.
- A retry trusts a recorded state that a revision did not clear: `StaleRetry` queues a task nobody approved,
  `QueuedWithoutApproval` is a run from the empty tables that ends there, `RetryKeepsIff` and
  `RetryIntoWorkIff` say when a retry is sound, `ReconnectKeepsIff` when a reconnection is. The workflow
  invariant is therefore stated for runs whose retries and reconnections pass this check; merges are safe
  without it, because the gate compares the hashes again.
- A task that is being executed does not always hold both approvals: reconcile sends a task to its review
  when somebody pushes, even while its plan waits for approval. `PushBeforeApproval` is a run that does it,
  `HeadChangeKeepsIff` says when a push does no harm. The strict form of the invariant is for runs in which
  pushes pass that check, the other form for all pushes; a queued task is approved in either.
- Images are replaced only under a journal that says `switching`, but `compose up` itself may also run
  under one that says `preflight`: `RollBackUnderPreflight` is such a run, and
  `UpWithoutSwitchingJournal` says exactly when it happens and that it changes no image.
- A retried or resumed task does not always have work: the job it queues may be one that the next claim
  drops, or its task may go back to a stopped state that was recorded. `ResumeWithoutWork` is such a task,
  `RetryQueuesIff` says when the job can run.
- A chunk may be one character over the limit, and the last one may be empty: `LimitIsExceeded` shows both,
  `SomeOverLimitIff` and `EmptyLastIff` say when, `NoEmptyChunk` gives a check on the text.

## Definitions

These functions and predicates say what one step does. They carry no promise of their own beyond framing;
the members of the next section are about them.

| definition | source | says |
|---|---|---|
| Dispatcher.IdentityCurrent | src/agent_team/engine.py:63-79 | a v1 job is current only for its specification version and hash; a v2 job for every hash, version and commit it names, an empty one matching anything |
| Dispatcher.Current | src/agent_team/engine.py:106-120 | the fence: running, this fence, this engine, lease not lapsed, task not stopped, identity current |
| Dispatcher.Release | src/agent_team/engine.py:81-86 | only the row of this job that this engine wrote goes; nothing else changes |
| Dispatcher.Requeue | src/agent_team/engine.py:132-136 | expired running jobs are fenced and wait again |
| Dispatcher.NoSlot | src/agent_team/engine.py:137-170 | when a job has no slot: v1 by role and by the chatgpt mode, v2 by its class, a consult counting as read_only |
| Dispatcher.TakeLease | src/agent_team/engine.py:171-194 | the repository's row is taken over with the next fence, or created with fence 1 |
| Dispatcher.Dispatch | src/agent_team/engine.py:195-262 | an admitted job is charged and started, or its task stops at the call limit, the money limit or the fourth attempt; rows, clock, engine and deployments keep |
| Dispatcher.Admit | src/agent_team/engine.py:147-262 | the loop body of claim for one queued job |
| Dispatcher.Scan | src/agent_team/engine.py:139-263 | the loop of claim over the queue in order of creation |
| Dispatcher.Claim | src/agent_team/engine.py:122-263 | nothing while a deployment runs; otherwise sweep, count, scan |
| Dispatcher.Heartbeat | src/agent_team/engine.py:265-285 | a current job's lease and the lease of its row move together; anything else changes nothing |
| Dispatcher.Settle | src/agent_team/engine.py:1202-1260 | after a failure: one retry in another format, two more attempts, a fallback role, or a stopped task |
| Dispatcher.Fail | src/agent_team/engine.py:1196-1260 | a failure that does not pass the fence changes nothing |
| Dispatcher.Finish | src/agent_team/engine.py:1152-1194 | a result that passes the fence ends the job, gives the repository back and moves the task on |
| Dispatcher.Invalidate | src/agent_team/service.py:68-71 | the active jobs of a task are dropped and fenced; other jobs stay |
| Dispatcher.Cancel | src/agent_team/service.py:274-320 | cancelling a v2 task also deletes the lease rows of all its jobs, whoever wrote them |
| Dispatcher.Retry | src/agent_team/service.py:348-381 | a job that is over waits again with its attempts reset |
| Dispatcher.RecoverStalled | src/agent_team/engine.py:1601-1617 | the active jobs of a silent task are dropped; the newest is enqueued again, or the task stops if the recorded version is still the task's |
| Dispatcher.Reserve | src/agent_team/workflow.py:526-563 | a reservation outside a dispatch, refused at the limit |
| Dispatcher.DeployClaim | src/agent_team/deployments.py:110-137 | no deployment starts while a job or another deployment runs |
| Release.Propose | src/agent_team/deployments.py:29-62 | a proposal replaces only an operation that is not queued, running, succeeded or still open for approval |
| Release.Claim | src/agent_team/deployments.py:108-137 | bridge claim: a running operation is resumed, the oldest queued one starts or fails stale |
| Release.Complete | src/agent_team/deployments.py:138-151 | bridge complete: idempotent for the same outcome, refused for another |
| Release.Next | scripts/deploy_supervisor.py:184-256 | one durable step of either side, or a crash |
| Workflow.CreateTask | src/agent_team/workflow.py:97-141 | a new v2 task drafts its requirements |
| Workflow.RestartCancelled | src/agent_team/workflow.py:228-268 | only a cancelled task is continued, by a new task that keeps its Issue |
| Workflow.RegisterRequirements | src/agent_team/workflow.py:143-226 | requirements are bound to an Issue, which another task may take over only from its cancelled predecessor |
| Workflow.ApproveRequirements | src/agent_team/workflow.py:283-334 | an approval of exactly the registered hash under its unconsumed confirmation id |
| Workflow.RegisterPlan | src/agent_team/workflow.py:336-379 | a plan gets the next version of its Issue |
| Workflow.CompletePlanReview | src/agent_team/workflow.py:381-462 | an uncovered plan goes back until the revision limit; a covered one waits for approval |
| Workflow.ApprovePlan | src/agent_team/workflow.py:484-524 | an approval of exactly the reviewed plan's hash and base under its unconsumed confirmation id |
| Workflow.Clarify | src/agent_team/service.py:176-190 | an answer to the implementation's own question keeps the approvals and re-queues the task |
| Workflow.Revise | src/agent_team/service.py:165-207 | any other answer takes both approvals back |
| Workflow.Retry | src/agent_team/service.py:321-417 | retry and resume go back to drafting for a saved proposal, else to the recorded state, to that of the failed job, or by the pull request |
| Workflow.HeadChanged | src/agent_team/engine.py:1414-1422 | reconcile after a push that leaves Issue and plan file alone: the task goes to its review, from any state that is compared and not stopped |
| Workflow.FoundMerged | src/agent_team/engine.py:1392-1403 | reconcile after a merge, from any state that is compared |
| Workflow.Reconnect | src/agent_team/engine.py:1670-1760 | work of the kind that failed is done again, in the state for that kind |
| MergeGate.ValidateFiles | src/agent_team/policy.py:126-140 | which problem of a change is reported first |
| MergeGate.MergeGate | src/agent_team/policy.py:154-215 | the gate, check by check |
| MergeGate.CommitReview | src/agent_team/engine.py:1128-1194 | behind the fence of its job a review approves the commits the pull request is at, sends the work back until the limit, or leaves it to a human |
| MergeGate.ApproveMerge | src/agent_team/service.py:253-273 | an owner approves exactly the task's head, base, authority and plan, for a limited time |
| MergeGate.Decide | src/agent_team/engine.py:1329-1462 | the first transaction of reconcile: what each observation does to the task |
| MergeGate.Execute | src/agent_team/engine.py:1463-1485 | the second transaction: fetch again, pass the gate again, merge |
| Publishing.Respond | src/agent_team/adapters/github.py:270-358 | every call of publish: what it does when it succeeds and which branch follows |
| Commands.AnswerOrRevise | src/agent_team/service.py:165-207 | answer and revise for both workflow versions; only their task is written |
| Commands.DoApproveSpec | src/agent_team/service.py:239-252 | an approval of exactly the current specification |
| Commands.PauseOrCancel | src/agent_team/service.py:274-320 | pause and cancel; only their task is written |
| Commands.RetryOrResume | src/agent_team/service.py:321-417 | retry and resume with all their ways back; only their task is written |
| Commands.Run | src/agent_team/service.py:92-428 | the whole command: authorization, replay, action, event |
| Delivery.Next | src/agent_team/adapters/discord.py:149-199 | one call of the sender, a crash, or a message of somebody else |
| Splitting.Chunks | src/agent_team/discord_delivery.py:11-36 | the chunks as a function of text and limit; there is always at least one |
| Dialogue.SpecialistTurn | src/agent_team/adapters/discord.py:957-1158 | the recursion of a turn, by whether falling back is still allowed and how many continuations are left |

The next lemmas read these definitions back in columns: when the step is accepted, and what it writes.

| table | source | says |
|---|---|---|
| DispatcherServes.FailureTable | src/agent_team/engine.py:1196-1260 | one retry in another format for a missing patch, two more attempts for an ordinary error, then the fallback role with the same work, then a blocked task |
| DispatcherServes.FinishTable | src/agent_team/engine.py:1152-1194 | the job is done, its repository free, its task has the new columns and the follow-up job |
| DispatcherServes.BeatTable | src/agent_team/engine.py:265-273 | the lease of the job and of the row it holds move to the same time |
| DispatcherServes.InvalidateTable | src/agent_team/service.py:68-71 | exactly the active jobs of the task are dropped and fenced, its state moves |
| DispatcherServes.CancelTable | src/agent_team/service.py:274-320 | besides, the lease rows of all jobs of a v2 task are gone, and no others |
| DispatcherServes.RetryTable | src/agent_team/service.py:348-381 | a job that is over waits as if new, under the fence it has |
| DispatcherServes.CreateTable | src/agent_team/workflow.py:97-141 | a new task has its state and, under v2, a budget with nothing spent |
| DispatcherServes.DeployStartsIff | src/agent_team/deployments.py:110-137 | a deployment starts exactly when neither a job nor a deployment runs |
| DispatcherServes.StallTable | src/agent_team/engine.py:1574-1617 | what was active is dropped; the version is noted and the newest work enqueued once more, or the task is blocked if that version was noted already |
| ReleaseOutcomes.ApproveIff | src/agent_team/deployments.py:65-83 | an owner, in time, with hash and commit of the operation its task points to; then the operation is queued under that owner |
| ReleaseOutcomes.ClaimTable | src/agent_team/deployments.py:108-137 | the first queued operation starts, fails stale, or waits for a busy host |
| ReleaseOutcomes.ResumeTable | src/agent_team/deployments.py:110-137 | a running operation is handed out again, marked as resumed |
| ReleaseOutcomes.ProposeTable | src/agent_team/deployments.py:29-62 | the row a proposal adds, exactly when the present operation may be replaced |
| WorkflowTables.RegisterTable | src/agent_team/workflow.py:143-226 | when a registration is accepted, and every column it writes |
| WorkflowTables.ApproveRequirementsTable | src/agent_team/workflow.py:283-334 | the same for an approval of requirements, with an unused confirmation |
| WorkflowTables.PlanTable | src/agent_team/workflow.py:336-379 | the same for a plan, whose version is one more than the largest of its Issue |
| WorkflowTables.PlanReviewTable | src/agent_team/workflow.py:381-462 | a plan that does not cover its requirements is sent back exactly while revisions are left, then blocks the task |
| WorkflowTables.ApprovePlanTable | src/agent_team/workflow.py:484-524 | exactly the reviewed plan with its base, then the task is queued |
| WorkflowTables.RestartTable | src/agent_team/workflow.py:228-268 | exactly a cancelled task is continued, from the start |
| WorkflowTables.AnswerTable | src/agent_team/service.py:165-207 | both approvals are kept exactly for an answer to an interrupted implementation |
| WorkflowTables.ReviseTable | src/agent_team/service.py:165-207 | a revision takes both approvals |
| WorkflowTables.CancelTable | src/agent_team/service.py:274-320 | exactly the grants of the task expire |
| WorkflowTables.FoundTable | src/agent_team/engine.py:1340-1426 | what reconcile makes of a changed Issue, plan or head and of a merge |
| WorkflowTables.BlockTable | src/agent_team/engine.py:1237-1260 | only a failed job records where the task was |
| WorkflowTables.ReconnectTable | src/agent_team/engine.py:1670-1760 | the state for each kind of work |
| WorkflowTables.RetryTable | src/agent_team/service.py:321-417 | the columns after an accepted retry or resumption |
| MergeRuns.ReconcileTable | src/agent_team/engine.py:1329-1462 | the first transaction, observation by observation |
| CommandTargets.ApproveSpecTable | src/agent_team/service.py:239-252 | exactly the current specification, then an implementation that can run waits |
| CommandTargets.ApproveMergeTable | src/agent_team/service.py:253-273 | exactly the current head, base and hash, then the approval is recorded with its time |
| CommandTargets.StopTable | src/agent_team/service.py:274-320 | refused only for a task that is over; the state before it is remembered |
| CommandTargets.RequestQueues | src/agent_team/service.py:115-164 | a new task waits with a first job that can run |
| CommandTargets.RunIff | src/agent_team/service.py:92-428 | an authorized command of a new event takes effect exactly when its action is accepted |
| CommandTargets.OnlyOwners | src/agent_team/service.py:109-114 | bots, strangers, other guilds and other channels change nothing |
| Splitting.ChunksTable | src/agent_team/discord_delivery.py:19-36 | the first chunk ends at that cut, the others are those of the rest |

## Model

| member | source | states |
|---|---|---|
| Dispatcher.Newest | src/agent_team/engine.py:1574-1591 | the last created active job of a task, if there is one |
| DispatcherSafety.CapsAdmit | src/agent_team/engine.py:137-170 | admitting a job that has a slot keeps every cap, because what claim counted at the start still covers what runs |
| DispatcherSafety.FreeRow | src/agent_team/engine.py:178-179 | after the sweep, a lease row that is not held against a job belongs to no other running job |
| DispatcherSafety.MidwayStop | src/agent_team/engine.py:180-254 | a job that is stopped after it took the lease leaves no row behind and starts nothing |
| DispatcherSafety.ScanKeeps | src/agent_team/engine.py:139-263 | the whole scan keeps the invariant |
| DispatcherSafety.ClaimKeeps | src/agent_team/engine.py:122-263 | claim keeps the invariant, whatever rows are locked and whatever money is spent |
| DispatcherSafety.BeatKeeps | src/agent_team/engine.py:269-273 | a beat keeps the invariant: job and row still expire together |
| DispatcherSafety.StalledCalm | src/agent_team/engine.py:1601-1617 | stalled recovery starts nothing and deletes only rows of jobs that stop running |
| DispatcherSafety.StepKeeps | src/agent_team/engine.py:122-1701 | every transaction keeps the invariant: rows match, writers own their lease rows, caps, attempts, budgets, jobs and deployments exclude each other |
| DispatcherRuns.RunInv | src/agent_team/engine.py:122-1701 | the invariant in every state of every run |
| DispatcherRuns.OneWriter | src/agent_team/engine.py:171-194 | in every reachable state at most one running repository_write job per repository, and it owns the row, which expires with it |
| DispatcherRuns.CapsHold | src/agent_team/engine.py:152-170 | in every reachable state: non-privileged v2 jobs within normal_concurrency, privileged v2 work other than consults within privileged_concurrency, one v1 job per role, one in all under chatgpt |
| DispatcherRuns.ThreeAttempts | src/agent_team/engine.py:244-258 | in every reachable state a running job is in its first, second or third attempt |
| DispatcherRuns.JobsExcludeDeployments | src/agent_team/deployments.py:110-137 | in every reachable state a running deployment is the only one and no job runs beside it |
| DispatcherRuns.ScanReturns | src/agent_team/engine.py:139-263 | a scan starts exactly the job it returns, with the next fence, a slot, a current identity and a paid call, and starts nothing else; without a result it starts nothing |
| DispatcherRuns.ClaimIsCurrent | src/agent_team/engine.py:106-120 | a claimed pair passes the fence right away, and no other fence of that job does |
| DispatcherRuns.DeadForGood | src/agent_team/engine.py:106-120 | a pair whose job left running, was fenced again, lost its engine or let its lease lapse never passes the fence again |
| DispatcherRuns.OnlyClaimStarts | src/agent_team/engine.py:244-262 | running is entered only by a claim, which returns the job with a strictly larger fence |
| DispatcherRuns.IssuedOnce | src/agent_team/engine.py:249-262 | no run hands out a pair of job and fence twice |
| DispatcherRuns.DispatchBudget | src/agent_team/engine.py:195-207 | from any reachable state, every dispatch of a v2 task raises its reservations, which never fall or pass the limit |
| DispatcherRuns.DispatchesAreBounded | src/agent_team/engine.py:195-207 | a v2 task is dispatched at most model_calls_per_task times in any run of failures, requeues, fallbacks, recoveries and retries |
| DispatcherRuns.PrivilegedOverCap | src/agent_team/engine.py:156-170 | admitting a waiting job takes the running jobs of privileged roles past their cap exactly when that job is a consult of such a role and the count stands at the cap |
| DispatcherRuns.CappedWithoutConsults | src/agent_team/engine.py:156-170 | if nobody ever enqueues a consult of a privileged role, the jobs of privileged roles stay within their cap in every state of the run |
| DispatcherRuns.ConsultsUncapped | src/agent_team/engine.py:156-170 | for every number of consults within the call limit there is a run in which that many of one privileged role run at once |
| DispatcherRuns.LeaseFenceRestarts | src/agent_team/engine.py:81-86 | after a writer failed, whoever takes its repository next starts at lease fence 1 |
| DispatcherRuns.NextTakeIff | src/agent_team/engine.py:171-194 | in any run, between one take of a repository and the next the fence of its lease grows exactly when no step deleted the row |
| DispatcherRuns.LeaseFenceKept | src/agent_team/engine.py:171-194 | in any run that does not delete the row the fence of a lease never falls |
| DispatcherRuns.SecondStall | src/agent_team/engine.py:1601-1617 | after one stalled retry the only active job of the task was started: the next stall stops the task exactly when that job is neither implement nor fix |
| DispatcherRuns.StepIsCareful | src/agent_team/engine.py:122-1701 | every transaction of the dispatcher treats jobs with the care that the theorems about commands rely on: a fence never falls, and running again needs a larger one |
| Engine.Engine.ReleaseLease | src/agent_team/engine.py:81-86 | the tables after it are those of Dispatcher.Release |
| Engine.Engine.Acquire | src/agent_team/engine.py:171-194 | refuses exactly when the row names another job and has not expired, and otherwise takes it |
| Engine.Engine.StartJob | src/agent_team/engine.py:244-262 | writes the job row, stops the fourth attempt, moves an implementation's task |
| Engine.Engine.AdmitJob | src/agent_team/engine.py:147-262 | the loop body with its writes in the code's order does what Dispatcher.Admit says |
| Engine.Engine.Sweep | src/agent_team/engine.py:132-136 | the loop over expired jobs |
| Engine.Engine.ScanQueue | src/agent_team/engine.py:139-263 | the loop over the queue returns what Dispatcher.Scan says |
| Engine.Engine.Claim | src/agent_team/engine.py:122-263 | claim: result and tables of Dispatcher.Claim, invariant kept; the first row that is not passed over is returned and started exactly when it can be |
| Engine.Engine.Beat | src/agent_team/engine.py:265-285 | heartbeat: accepted exactly for a current pair; invariant kept |
| Engine.Engine.SettleJob | src/agent_team/engine.py:1202-1260 | the branches of fail, releasing the lease first |
| Engine.Engine.FailJob | src/agent_team/engine.py:1196-1260 | fail behind its fence; invariant kept |
| Engine.Engine.FinishJob | src/agent_team/engine.py:1152-1194 | a committed result behind its fence; invariant kept |
| Domain.DropActiveJobs | src/agent_team/service.py:68-71 | the loop of invalidate drops and fences exactly the active jobs of the task |
| Engine.Engine.InvalidateTask | src/agent_team/service.py:68-71 | the job rows after invalidate are those of Dispatcher.Invalidate |
| Engine.Engine.CancelTask | src/agent_team/service.py:274-320 | cancel with the deletion of lease rows; invariant kept |
| Engine.Engine.DropStalled | src/agent_team/engine.py:1601-1604 | the loop that cancels each active job and releases its lease reaches the state of Dispatcher.DropActive |
| Engine.Engine.RecoverTask | src/agent_team/engine.py:1574-1617 | recover_stalled_v2 for one task; invariant kept |
| DispatcherRuns.FailureGoesOn | src/agent_team/engine.py:1196-1260 | after an accepted failure the same work waits again, with this role or its fallback, or its task is stopped; the failed pair is dead and its repository free |
| DispatcherRuns.RecoveryGoesOn | src/agent_team/engine.py:1601-1617 | after a stalled recovery the task is stopped without an active job, or has exactly one: the newest one's work, waiting under the task's present identity |
| DispatcherRuns.BeatStays | src/agent_team/engine.py:265-273 | a worker that keeps beating keeps its pair, with a fresh lease |
| DispatcherServes.AdmitTable | src/agent_team/engine.py:147-262 | the whole fate of a waiting job the scan looks at, in columns: stopped task, foreign identity, no slot among the rows counted or a repository held by another job under an unexpired lease, no call left, no money, fourth attempt, or started with the next fence, attempt and lease fence |
| DispatcherServes.ClaimServesIff | src/agent_team/engine.py:122-263 | if every row before it is passed over, a claim returns a row exactly when, after the sweep, it can be started, v1 or v2, writer or not; its repository must have no row, an expired one, or the row of this very job; and then the claim has started it |
| DispatcherServes.HeldWriterWaits | src/agent_team/engine.py:171-179 | a writer whose repository another job holds under a lease that has not expired waits, unchanged |
| DispatcherServes.ServedInOrder | src/agent_team/engine.py:139-263 | whatever stands before it in the queue: a scan that returns no earlier job has dealt with every job that has a slot and whose repository, if it writes, is free, unless its row is locked or its task stopped |
| DispatcherServes.RunningStays | src/agent_team/engine.py:132-263 | no claim touches a running job whose lease has not lapsed |
| DispatcherServes.CrashedWriterReturns | src/agent_team/engine.py:122-263 | in any run: a writer is started, its engine dies and its lease lapses; the first claim of the next engine returns it, although its own row still stands, under the next job fence and the next lease fence |
| DispatcherServes.CapsHoldInRows | src/agent_team/engine.py:152-170 | in every reachable state the caps hold as numbers of rows: ordinary v2 jobs within normal_concurrency, no two v1 jobs of a role, no two at all under chatgpt |
| DispatcherServes.CountIsSize | src/agent_team/engine.py:137-146 | the counts of the caps are the sizes of the sets of rows they speak of |
| DispatcherServes.DispatchTable | src/agent_team/engine.py:195-262 | the four ends of a dispatch: no call left, no money left, fourth attempt, started; a v2 job pays in all but the first |
| DispatcherServes.CurrentIff | src/agent_team/engine.py:106-120 | the fence of every call about a job, in columns of its row and of its task |
| DispatcherServes.ReservationsAddUp | src/agent_team/workflow.py:526-563 | reservations outside a dispatch add up, one by one, to the limit on model calls and no further |
| DispatcherServes.SilentTwice | src/agent_team/engine.py:1601-1617 | a task that falls silent twice with nothing in between is blocked the second time |
| Release.First | src/agent_team/deployments.py:117-124 | the first operation with a status in order of creation |
| Release.StepKeeps | scripts/deploy_supervisor.py:184-256 | every durable step of either side, and every crash between two of them, keeps the invariant |
| Release.RunInv | scripts/deploy_supervisor.py:184-256 | the invariant in every state of every run |
| Release.OutcomeIsTrue | scripts/deploy_supervisor.py:199-256 | whenever the controller records an outcome, it is true of the world: succeeded means the approved commit runs in every service and is the baseline, rolled_back and failed mean images and baseline are as they were before the operation |
| Release.ReportIsAccepted | src/agent_team/deployments.py:138-151 | a report of the supervisor is never refused, so no id ever gets two outcomes |
| Release.OneForwardSwitch | scripts/deploy_supervisor.py:199-256 | across all crashes each operation starts its candidate at most once |
| Release.HaltedForGood | scripts/deploy_supervisor.py:203-205 | after rollback_failed no later tick claims or switches |
| Release.ImagesChangeUnderJournal | scripts/deploy_supervisor.py:239-241 | running images change only while the journal on disk says switching and holds the old set |
| Release.UpWithoutSwitchingJournal | scripts/deploy_supervisor.py:184-197 | compose up runs under a journal that does not say switching exactly in a rollback after the write that should have said so was lost, and then changes no image |
| LostWrite.RollBackUnderPreflight | scripts/deploy_supervisor.py:184-241 | there is a run from the start, through a merge, a proposal, an approval and a claim, whose last step rolls back under a journal that says preflight |
| Release.ForwardIsApproved | src/agent_team/deployments.py:65-82 | in any run an operation that is queued or running, or whose candidate was ever started, was approved before: by an owner, in time, with its own hash and commit, while its task pointed to it |
| Release.SupersededIsFrozen | src/agent_team/deployments.py:29-62 | an operation that a later proposal replaced never changes again |
| Release.OneSuccessPerTask | src/agent_team/deployments.py:108-151 | of all operations of one task at most one ever succeeds |
| Release.SuccessStays | src/agent_team/deployments.py:143-147 | a terminal operation never changes again |
| ReleaseOutcomes.OutcomeIsLastWord | scripts/deploy_supervisor.py:184-256 | why an outcome is recorded: without a report it is failed, of an approval that was stale at its claim; with a report it is the last thing the host settled about the operation: succeeded by the saved baseline, rolled_back by verified old images and the saved old baseline, rollback_failed by the failure of one of these two, failed by a record that never said switching |
| ReleaseOutcomes.RunIsHonest | scripts/deploy_supervisor.py:184-256 | at every moment of every run a record that calls itself complete, in memory or on disk, names that last outcome of its own operation |
| ReleaseOutcomes.FailedWasNeverArmed | scripts/deploy_supervisor.py:184-197 | in any run the host settles failed only for an operation whose record never said switching on disk |
| ReleaseOutcomes.ForwardWasArmedInTime | scripts/deploy_supervisor.py:222-241 | in any run the start of a candidate was preceded by the second look: the approval had not run out, and the images were those captured |
| ReleaseOutcomes.CrashIsRolledBack | scripts/deploy_supervisor.py:184-256 | after a crash in the switch window, if every call arrives, the images and the baseline are the old ones again and the operation says rolled_back |
| ReleaseOutcomes.ReleaseGoesThrough | scripts/deploy_supervisor.py:199-256 | an approved operation whose calls all arrive succeeds: its commit is the baseline and runs in every service, and the host is at rest |
| Supervisor.Supervisor.Recover | scripts/deploy_supervisor.py:184-197 | recover goes back to the captured images if the switch may have begun, never forward, and is a run of the protocol; its outcome is the last word of that run: failed for a preflight record, rolled_back or rollback_failed by what the calls of the restoration did, an outcome already on disk unchanged; it ends without one only when a call failed; when every call arrives it says failed, rolled_back or what the disk said |
| Supervisor.Supervisor.RestoreImages | scripts/deploy_supervisor.py:125-133 | switch to the old set succeeds only if every service then runs it |
| Supervisor.Supervisor.Prepare | scripts/deploy_supervisor.py:211-240 | checks, capture and the write ahead of the switch, each step logged; when every call arrives it refuses exactly a resumed, late or foreign approval |
| Supervisor.Supervisor.CheckAndCapture | scripts/deploy_supervisor.py:211-221 | a stale, resumed or foreign approval is refused; otherwise images and baseline are captured and the candidate is built |
| Supervisor.Supervisor.ArmSwitch | scripts/deploy_supervisor.py:222-240 | the second look at approval and runtime, then the record that is written ahead of the switch |
| Supervisor.Supervisor.SwitchForward | scripts/deploy_supervisor.py:241-246 | the candidate is started, observed twice and committed to, or recovery follows |
| Supervisor.Supervisor.TryRelease | scripts/deploy_supervisor.py:211-251 | the try block with its handler ends with a durable outcome or without one |
| Supervisor.Supervisor.ClaimWork | scripts/deploy_supervisor.py:203-251 | no claim after rollback_failed; a claim is saved before anything else |
| Supervisor.Supervisor.Conclude | scripts/deploy_supervisor.py:252-256 | report, file the result, drop the journal, in this order |
| Supervisor.Supervisor.Tick | scripts/deploy_supervisor.py:199-256 | tick is a run of the protocol, with owners and controller acting between its calls; a concluded tick has told the controller the outcome its own last calls settled, which is true of the world; a tick that concludes nothing made a claim that brought nothing, is halted, or lost a call; when every check passes and every call arrives, the first waiting operation succeeds, and an interrupted switch is rolled back |
| Workflow.MaxVersion | src/agent_team/workflow.py:343-350 | the largest version among the plans of an Issue, or 0 |
| WorkflowSafety.RegisterKeeps | src/agent_team/workflow.py:143-226 | registering keeps every task's approvals bound to its own hashes |
| WorkflowSafety.ApproveRequirementsKeeps | src/agent_team/workflow.py:283-334 | approving requirements keeps the invariant |
| WorkflowSafety.PlanKeeps | src/agent_team/workflow.py:336-379 | registering a plan keeps the invariant |
| WorkflowSafety.ReviewKeeps | src/agent_team/workflow.py:381-462 | a plan review keeps the invariant |
| WorkflowSafety.ApprovePlanKeeps | src/agent_team/workflow.py:484-524 | approving a plan keeps the invariant |
| WorkflowSafety.StepKeeps | src/agent_team/workflow.py:97-524 | every step keeps the invariant: a retry or a reconnection if the approvals fit the state it goes to, and a push to an unapproved plan unless it is the strict form, which asks that every executing task holds both approvals |
| WorkflowSafety.QueuedIsApproved | src/agent_team/workflow.py:484-524 | in every run whose retries and reconnections pass their check, with pushes at any time, a queued task carries a standing grant of exactly its requirements hash and one of exactly its plan hash and base, and that plan passed its review |
| WorkflowSafety.ConsumedOnceInRun | src/agent_team/workflow.py:300-303 | in any run each confirmation id is consumed at most once |
| WorkflowSafety.VersionsIncrease | src/agent_team/workflow.py:343-350 | in any run plan versions strictly increase for each Issue |
| WorkflowSafety.HandOver | src/agent_team/workflow.py:170-180 | a step hands an Issue over only from a cancelled task to the task that continues it |
| WorkflowSafety.AuthorityDescends | src/agent_team/workflow.py:170-180 | in any run whoever speaks for an Issue later descends, restart by restart, from whoever spoke for it |
| WorkflowSafety.OneSpeaker | src/agent_team/workflow.py:170-180 | at most one task that is not cancelled is bound to an Issue |
| WorkflowSafety.CancelledForGood | src/agent_team/service.py:208-209 | a cancelled v2 task never changes again |
| WorkflowSafety.RetryKeepsIff | src/agent_team/service.py:321-417 | a retry keeps the invariant exactly when it is refused or the approvals of the task fit the state it goes to |
| WorkflowSafety.RetryIntoWorkIff | src/agent_team/service.py:365-417 | a retry into a state of execution keeps the invariant exactly when the task holds both approvals |
| WorkflowSafety.ReconnectKeepsIff | src/agent_team/engine.py:1670-1760 | the same for work that is done again, with the state for the kind of the failed job |
| WorkflowSafety.HeadChangeKeepsIff | src/agent_team/engine.py:1414-1422 | a push keeps every executing task approved exactly when the plan of the task is approved already |
| WorkflowSafety.PushBeforeApproval | src/agent_team/engine.py:1414-1422 | a run from the empty tables to a published and reviewed plan: a push then puts the task under review without the approval of its plan |
| WorkflowSafety.StaleRetry | src/agent_team/service.py:373-381 | for every queued task: a failure, a revision and a stopped draft let a retry queue it with no approval at all |
| WorkflowSafety.QueuedWithoutApproval | src/agent_team/service.py:373-381 | the whole run from the empty tables: create, register, two approvals, and then those four steps, to a queued task without approvals |
| WorkflowSafety.ApprovalsQueue | src/agent_team/workflow.py:283-524 | two approvals by the configured people, with a plan and its review between them, queue a task, under any unused confirmation id |
| WorkflowSafety.RevisionsBounded | src/agent_team/workflow.py:412-446 | in any run no task's plan is sent back more often than plan_revision_limit |
| WorkflowService.WorkflowV2Service.Register | src/agent_team/workflow.py:143-226 | the rows or the error of Workflow.RegisterRequirements, invariant kept |
| WorkflowService.WorkflowV2Service.Restart | src/agent_team/workflow.py:228-268 | the rows or the error of Workflow.RestartCancelled |
| WorkflowService.WorkflowV2Service.ApproveTheRequirements | src/agent_team/workflow.py:283-334 | the rows or the error of Workflow.ApproveRequirements |
| WorkflowService.WorkflowV2Service.SubmitPlan | src/agent_team/workflow.py:336-379 | the rows or the error of Workflow.RegisterPlan |
| WorkflowService.WorkflowV2Service.CompleteReview | src/agent_team/workflow.py:381-462 | the rows or the error of Workflow.CompletePlanReview |
| WorkflowService.WorkflowV2Service.ApproveThePlan | src/agent_team/workflow.py:484-524 | the rows or the error of Workflow.ApprovePlan |
| WorkflowService.WorkflowV2Service.Answer | src/agent_team/service.py:165-207 | the rows or the error of Workflow.Clarify or Workflow.Revise |
| WorkflowService.WorkflowV2Service.CancelTask | src/agent_team/service.py:274-320 | the loop expires every approval of the task, then the task is cancelled |
| MergeGate.AcceptedIff | src/agent_team/policy.py:126-140 | a change is accepted exactly when it is neither empty nor oversized, every file is in order and the approved specification is unmodified |
| MergeGate.AllGreenIff | src/agent_team/policy.py:186-197 | the loop over the trusted checks passes exactly when all of them are there, of this head, and successful |
| MergeGate.ReadyIff | src/agent_team/policy.py:154-215 | the gate opens exactly for a reviewed, green, identified pull request of these commits that low risk or an unexpired approval of exactly these commits admits |
| MergeGate.AsksHumanIff | src/agent_team/policy.py:154-215 | a human is asked exactly for such a pull request that nothing admits |
| MergeGate.ChangeInvalidates | src/agent_team/engine.py:1340-1426 | whatever reconcile finds changed, closed or merged: no review or merge approval outlives it, no merge is intended, and the gate would refuse |
| MergeGate.IntendsIff | src/agent_team/engine.py:1329-1462 | a merge is intended exactly for an open pull request that nothing changed and that passes the gate |
| MergeGate.StepKeeps | src/agent_team/engine.py:1318-1490 | every review, approval, reconciliation, merge and foreign write keeps the records and what rests on them |
| MergeGate.MergesAreApproved | src/agent_team/engine.py:1463-1478 | every merge of every run is of exactly the commits, authority and plan an earlier approving review named and, unless low risk was enough, an owner's unexpired approval too |
| MergeGate.DisabledNeverMerges | src/agent_team/policy.py:158-159 | with merge_mode disabled no run merges |
| MergeRuns.ReviewTable | src/agent_team/engine.py:1128-1194 | exactly when a review is accepted, and for each decision and limit, v1 and v2, the new state, rounds and approval |
| MergeRuns.ApprovalIsRecorded | src/agent_team/engine.py:1162-1172 | an accepted approving review of exactly what the task is about is the approval the gate asks for; no other decision changes the approval |
| MergeRuns.ApproveTable | src/agent_team/service.py:253-273 | an owner's approval is accepted exactly for the head, base and hash of a task that waits for it, and is then recorded with its time |
| MergeRuns.ExecuteTable | src/agent_team/engine.py:1463-1485 | the second transaction merges exactly an intended, unmerged, still reviewed and admitted pull request, once; otherwise nothing, and a task whose pull request the gate refuses is stopped without approvals |
| MergeRuns.FailedIff | src/agent_team/policy.py:186-197 | the gate reports failed checks exactly when the first required check that is not green has failed |
| MergeRuns.HumanMerge | src/agent_team/engine.py:1128-1485 | the positive run: for any sound pull request an approving review, a reconciliation that asks, an owner's approval, a reconciliation that intends and the merge end in exactly one merge of the reviewed commits |
| MergeRuns.LowRiskMerge | src/agent_team/engine.py:1128-1485 | the same without an owner for a pull request that low risk admits |
| MergeController.Controller.FinishReview | src/agent_team/engine.py:1128-1194 | the rows or the error of MergeGate.CommitReview, for every decision; invariant kept |
| MergeController.Controller.Approve | src/agent_team/service.py:253-273 | the rows or the error of MergeGate.ApproveMerge |
| MergeController.Controller.Reconcile | src/agent_team/engine.py:1329-1462 | the branches with their writes in the code's order do what MergeGate.Decide says |
| MergeController.Controller.PassGate | src/agent_team/engine.py:1427-1462 | what each answer of the gate does to the task |
| MergeController.Controller.ExecuteMerge | src/agent_team/engine.py:1463-1485 | the second transaction, with a guard error handled as in reconcile |
| Publishing.StepKeeps | src/agent_team/adapters/github.py:270-358 | every call, cut before or after it takes effect, keeps the invariant |
| Publishing.PublishedOnce | src/agent_team/adapters/github.py:270-358 | after any cut attempts and one that completes the branch stands exactly one commit further, with this key, this parent and the parent's tree under the files, and exactly one pull request is open |
| Publishing.NeverHalfPublished | src/agent_team/adapters/github.py:270-343 | at every moment the branch is where it was or at one finished publication, with at most one pull request |
| Publishing.RetryCompletes | src/agent_team/adapters/github.py:270-358 | whatever earlier attempts left behind, an attempt that is left alone completes within a fixed number of calls |
| Publishing.PendingIsRetried | src/agent_team/engine.py:287-302 | from every state of the invariant with an idle publisher and an operation that is not done, a new attempt that is left alone makes calls and ends with the operation done |
| Publishing.SoundStep | src/agent_team/adapters/github.py:288-314 | even with strangers at work, the head an attempt holds is a commit of this key |
| Publishing.NothingOverwritten | src/agent_team/adapters/github.py:289-319 | with anyone else pushing, deleting and closing in between, the publisher moves the branch only to its own commit on the recorded parent, and any head that was there stays in its history |
| Publishing.StrangerIsLeftAlone | src/agent_team/adapters/github.py:295-300 | while a stranger's commit is the head, no number of attempts changes the store or records the operation as done |
| Publishing.DoneForGood | src/agent_team/engine.py:287-302 | an operation recorded as done is never called again |
| Publisher.Publisher.BuildEntries | src/agent_team/adapters/github.py:304-310 | the loop over the files: exactly their entries, or nothing if a path is unsafe |
| Publisher.Publisher.InspectRef | src/agent_team/adapters/github.py:294-300 | a head with this key counts as published; any other head than the parent is refused |
| Publisher.Publisher.MoveBranch | src/agent_team/adapters/github.py:316-319 | PATCH without force, or POST of a ref that must not exist |
| Publisher.Publisher.Confirm | src/agent_team/adapters/github.py:345-358 | three looks at a pull request that may lag behind its branch |
| Publisher.Publisher.Publish | src/agent_team/adapters/github.py:270-343 | publish in the code's order is a run of the protocol |
| Publisher.Publisher.External | src/agent_team/engine.py:287-302 | a recorded result is returned without a call; anything else, pending or not, makes calls and ends with a recorded result unless a call failed or was refused; a new result is true of the branch if nobody else touched the repository |
| Commands.Newest | src/agent_team/service.py:171 | the last created job of a task |
| Commands.NewestDraft | src/agent_team/service.py:331-340 | the last created finished draft of a task |
| Commands.EarlyReplay | src/agent_team/service.py:176-190 | after the early return the same answer becomes a revision that takes both approvals back |
| Commands.ReplayIff | src/agent_team/service.py:112-190 | replaying an accepted command changes nothing exactly when it had not returned early |
| Commands.EffectOnce | src/agent_team/service.py:109-114 | over any run of commands with any other transactions in between, the action of an event takes effect at most once unless it returned early |
| Commands.StopsEverything | src/agent_team/service.py:68-72 | a pause, cancel or revision puts every earlier pair of the task behind the fence and leaves neither a review nor a merge approval |
| Commands.StoppedForGood | src/agent_team/service.py:68-72 | over any run that follows a pause, a cancel or a revision, no job of the task passes the fence again under a pair it had before |
| Commands.RetryQueuesIff | src/agent_team/service.py:321-417 | a retry or resumption puts a job of its task into the queue; claim will accept it, in a task that is not stopped, exactly when a check on the state before the command holds: a saved v2 job still matches its task, or budget stopped it, and no stopped state is recorded; a v2 task without such a job has a pull request; v1 always |
| Commands.ResumeWithoutWork | src/agent_team/service.py:410-417 | a v2 task that is resumed before it has a pull request is left in Clarifying with no job that claim will accept |
| Commands.AnswerLeavesWork | src/agent_team/service.py:165-238 | a task that was answered or revised has a waiting job that claim will accept |
| CommandTargets.RetryTargets | src/agent_team/service.py:321-417 | the state every accepted retry or resumption leads to, by the columns before it: drafting for a saved proposal; the recorded state, or that of the kind, for v2 work that is repeated; the queue or the review for a saved v1 response; else review, queue or clarification by pull request and approved specification |
| CommandTargets.RetryAcceptedIff | src/agent_team/service.py:321-417 | a retry is accepted exactly in Blocked, a resumption exactly in Paused, unless the saved proposal is gone, the budget still refuses, or the job has no state to go back to |
| CommandTargets.AnswerAcceptedIff | src/agent_team/service.py:165-207 | an answer or a revision is refused exactly when the task is over or merging, the text blank, a v1 task past its clarification, or the question not the task's any more |
| CommandTargets.AnswerTargets | src/agent_team/service.py:165-207 | an answer to the implementation's question goes back to work under both approvals; everything else starts over, without approvals and with the text kept |
| Commands.OthersUntouched | src/agent_team/service.py:92-428 | a command leaves every task but its own alone |
| TaskService.TaskService.InvalidateTask | src/agent_team/service.py:68-72 | the loop over the job rows, then the approvals |
| TaskService.TaskService.AnswerOrReviseTask | src/agent_team/service.py:165-238 | the rows or the error of Commands.AnswerOrRevise |
| TaskService.TaskService.ExpireApprovals | src/agent_team/service.py:274-320 | the loop lets every approval of the task expire now, and no other |
| TaskService.TaskService.CancelMessages | src/agent_team/service.py:274-320 | the loop cancels every unsent message of the task, and no other |
| TaskService.TaskService.WithdrawTask | src/agent_team/service.py:274-320 | what a cancel withdraws besides the jobs: leases, approvals and messages |
| TaskService.TaskService.PauseOrCancelTask | src/agent_team/service.py:274-320 | the rows or the error of Commands.PauseOrCancel |
| TaskService.TaskService.RetryOrResumeTask | src/agent_team/service.py:321-417 | the rows or the error of Commands.RetryOrResume |
| TaskService.TaskService.Command | src/agent_team/service.py:92-428 | the reply and the tables of Commands.Run |
| Delivery.StepKeeps | src/agent_team/adapters/discord.py:149-199 | every call and every crash keeps the invariant: parts go out in order, once, findable by marker or receipt |
| Delivery.AtMostOnce | src/agent_team/adapters/discord.py:149-199 | in any run of crashed and retried sends no part is posted twice |
| Delivery.CompletedIsDelivered | src/agent_team/adapters/discord.py:170-199 | a completed send leaves every part in one message without its marker, in order |
| Delivery.DeliveredText | src/agent_team/adapters/discord.py:149-199 | those contents concatenate to exactly the original text |
| Delivery.Sender.ScanHistory | src/agent_team/adapters/discord.py:162-168 | the search finds exactly the marked parts among the newest hundred messages |
| Delivery.Sender.ResolvePart | src/agent_team/adapters/discord.py:170-187 | marker first, then receipt, then a new post |
| Delivery.Sender.SendChunked | src/agent_team/adapters/discord.py:149-199 | an attempt cut after any number of calls is a run of the protocol; a completed one has delivered |
| Splitting.SplitDiscordText | src/agent_team/discord_delivery.py:11-36 | the loop refuses a limit below 1 and otherwise ends, with exactly those chunks |
| Splitting.Lossless | src/agent_team/discord_delivery.py:11-36 | the chunks concatenate to the text |
| Splitting.ChunkSizes | src/agent_team/discord_delivery.py:19-35 | every chunk is at most limit + 1 long and every chunk but the last is nonempty |
| Splitting.CutTable | src/agent_team/discord_delivery.py:19-35 | where a text that is too long is cut: behind the last double line break that ends within the limit and is not at the very start, else the last line break, else the last blank, else exactly at the limit |
| Splitting.OverLimitIff | src/agent_team/discord_delivery.py:19-34 | the first chunk is over the limit exactly when the chosen separator ends one past it |
| Splitting.SomeOverLimitIff | src/agent_team/discord_delivery.py:19-35 | some chunk is over the limit exactly when such a separator stands at a position where a chunk begins |
| Splitting.EmptyLastIff | src/agent_team/discord_delivery.py:19-35 | the last chunk of a nonempty text is empty exactly when, at some position where a chunk begins, the rest is one over the limit and ends with the separator of the cut |
| Splitting.NoEmptyChunk | src/agent_team/discord_delivery.py:19-35 | a nonempty text that ends neither in a blank nor in a line break has no empty chunk |
| Splitting.LimitIsExceeded | src/agent_team/discord_delivery.py:19-35 | a text whose chunk is over the limit and whose last chunk is empty |
| Dialogue.BoundContinuation | src/agent_team/coordination.py:15-38 | a turn that may continue is left as it is; any other continuation becomes a reply or a question without an instruction, by its depth |
| Dialogue.ValidateHandoffs | src/agent_team/coordination.py:41-73 | an accepted decision hands off only where its position in the dialogue permits |
| Dialogue.TurnBound | src/agent_team/adapters/discord.py:1025-1154 | one call takes at most 2 * (limit + 1) turns, at least one, and an answer turn at most two |
| Dialogue.AnswerIsPermitted | src/agent_team/adapters/discord.py:1065-1155 | the decision a turn returns is permitted at its position, although a fallback may have given it |
| DialogueTurns.AcceptedIff | src/agent_team/coordination.py:41-73 | a decision is accepted exactly when it keeps all the rules of its position, and then unchanged |
| DialogueTurns.EndpointTable | src/agent_team/coordination.py:15-73 | what one reaction of a model comes to: a bounded decision that keeps the rules, a refusal, or silence for a malformed one |
| DialogueTurns.TurnEnds | src/agent_team/adapters/discord.py:1025-1155 | a turn goes on exactly as long as it continues and ends with the first reaction that does not, with its decision or with nothing; only silence calls the fallback role, once and from the start |
| DialogueTurns.TurnDoesEnd | src/agent_team/adapters/discord.py:1025-1155 | every turn has such an end within the continuations that are left |
| Dialogue.BoundIsTight | src/agent_team/adapters/discord.py:1025-1154 | for every limit some dialogue takes exactly 2 * (limit + 1) turns |
| Dialogue.ResolveHandoffs | src/agent_team/coordination.py:76-116 | exactly one dispatch for each requested role, by the place of the first request for it, with exactly its accepted requests in order |
| Dialogue.GroupDecision | src/agent_team/coordination.py:82-88 | the inner loop over one decision's handoffs |
| Dialogue.RolesInOrder | src/agent_team/coordination.py:82-88 | of two roles the one listed first was asked first |
| Dialogue.RunHandoffDialogue | src/agent_team/adapters/discord.py:1208-1257 | the turns of one recipient and those it questions are exactly those of its rounds, and stay within a closed bound |
| Dialogue.RunRound | src/agent_team/adapters/discord.py:1208-1257 | one round: another follows exactly when the recipient asked and somebody answered |
| Dialogue.AnswerQuestions | src/agent_team/adapters/discord.py:1229-1252 | every question of a round is put, in order, and the answers are counted |
| Dialogue.RunDialogues | src/agent_team/adapters/discord.py:1205-1257 | the dialogues of all dispatches, one after the other |
| Dialogue.InitialTurns | src/agent_team/adapters/discord.py:1160-1163 | the first turns of all delegated specialists: exactly the answers they give, within their bound |
| Dialogue.HandleDelegations | src/agent_team/adapters/discord.py:1160-1261 | everything one delegating message sets off: exactly these turns, within a closed bound |
| Redaction.MergeFindings | src/agent_team/redaction.py:179-184 | the ranges are sorted, disjoint and separated, and cover exactly the union of the findings |
| Redaction.RedactText | src/agent_team/redaction.py:173-191 | the output is the text with each maximal covered run replaced by one marker |
| Redaction.NothingLeaks | src/agent_team/redaction.py:173-191 | two texts that agree outside the findings redact to the same output |
| Redaction.NothingElseChanges | src/agent_team/redaction.py:173-191 | every uncovered character is kept in order, and one marker stands for each run |

## Left out

- Network, subprocess, Docker, sbx and git plumbing: each call is a nondeterministic step with a stated effect.
- Prompts, persona rules, explanations, message bodies, and the outbox apart from its cancellation.
- Regular expressions, hashing and acceptance ids: findings, pattern matches, digests and the validity of a
  plan or the coverage of a review are given values.
- SQLAlchemy, migrations, configuration, HTTP routes, probe and smoke scripts, the worker server.
- Role registry validation and the Discord change service, which would add only easy members.
- `replace_with_chunked`, and sending without receipts or without a bot id.
- Deleted Discord messages; a marker is modelled as the part number it carries, not as text.
- Row locks of other transactions and the money limits of live mode are parameters of a claim.
- `recover_after_runtime_change` and `recover_invalid_spec_finding`: both are an edit and a new job in the dispatcher.
- Retries in the dispatcher may pick any finished job, and edits may set any identity: a superset of the code's.
- The override file of `compose up` and the health and idle polls are folded into the step they belong to.
- Dispatcher.Reserve: counts model calls only; consultation and revision counters are not part of it.
- Engine.Engine.FinishJob: the new state and the follow-up job are parameters, a superset of what the many results of `finish` and `finish_v2` choose; the review result with its own choice is `MergeController.Controller.FinishReview`.
- Dispatcher.Finish: the many results of `finish` and `finish_v2` are one step with an arbitrary new state and follow-up job.
- Publishing.PublishedOnce: assumes that no commit carried the operation key before, because the key names the operation.
- Delivery.AtMostOnce: assumes what the design does, that a posted part without a receipt is still among the newest hundred messages and that other messages of the bot carry no markers.
