# Verified model of the agent platform's core

This project models the parts of the platform where a mistake is hard to see from any one
function, and proves what they promise over every run:

- **Durable jobs** (`services/job_svc`). The `jobs` table with its guarded status changes, two retry
  budgets, claim leases and reaper (`JobRows`, `JobStore`, `JobBudgets`, `Claiming`, `Lease`); the runner
  that plans once, runs the steps in order, checkpoints after each, pauses for approval and resumes
  (`CheckpointMachine`, `Checkpoints`, `CrashResume`, `RunStory`, `Runner`); the poller (`Poller`); the plan parser
  (`PlanParser`); and how callers see progress (`ProgressView`).
- **The approval gate** (`ApprovalGate`, `SplitPauses`), from one tool call in the orchestrator through a
  turn's finish reason to the runner's checkpoint and its one-shot `approved` flag, and what becomes of it
  when a pause loses its second write.
- **The query tool's tenant rewrite** (`SqlModel`, `SqlRenaming`, `SqlNames`, `SqlScope`, `SqlLosses`): a
  SELECT language with joins, derived tables, correlated subqueries, grouping, set operations and functions
  that run SQL text, its static checks and meaning, the rewrite, and what the rewrite does not keep.
- **Smaller cores**: the task snapshot cache (`TaskCache`, `TaskTables`, `StaleTasks`), slug allocation and
  transcripts (`Slugs`), and PII redaction (`Redaction`).

`Base`, `Decimal` and `Text` hold shared types and Python's `str(int)`, `int(str)`, `strip` and
whitespace; `Schedules` holds the stretches of schedules from which counterexamples are built.

## How it is built

Code that changes state is written as classes and methods that change state: `JobService` reassigns the
table, `JobRunner` mutates one shared progress dictionary, `AgentToolWorkbench` its pending approvals,
`SlugSet` its set of taken slugs, `TaskService` its task rows, `ValidateQuery` the table nodes in their
array. Each method is proved against a function of the old state, or, in the runner and the poller, against
the transition system below, and the theorems are about those.

Every database write, orchestrator call and crash is one move of the machine in `CheckpointMachine`; a
schedule is an arbitrary list of moves, in which a move that cannot happen where it stands changes
nothing. A claim is only a move while the job has no live runner: that is the hypothesis "one live runner
per job" which `save_progress` (no status or owner guard) needs, and `Lease` says exactly when the timing
provides it. `JobRunner` keeps a ghost trace of the moves it makes; while it waits for a reply or a write,
others may send any requests about the job, reap it or renew its lease (`Meanwhile`). Its contracts say
that the table and the in-memory dictionary stand where the trace puts them, that the trace holds only its
own moves and such requests, and that what it asked the orchestrator is exactly what the trace says, with
the same prompts and approval flags. A tick of the poller returns the trace of every job: its run, and
what others did to it meanwhile. So everything proved of all schedules holds of the methods.

A run's contract (`Runner.JobRunner.RunJob`) says, in terms of what the orchestrator was asked and answered, what the
run asks, in which order, and how it leaves the row. Its field `outages` says whether database writes may fail; where
they do not, the closing status change is always made.

Three hypotheses recur. `IsFresh` is a job as `create` inserts it, with `max_attempts >= 1`.
`Consistent` (crash-resume only) says successful replies depend only on the prompt; whether and when a
call fails or pauses stays arbitrary. `parse` is any function from the planner's text to a list of
prompts; `PlanParser` is about the real one.

## Where the code and its documentation differ

The model follows the code.

- `services/job_svc/README.md:203-207` calls `dead` terminal; `dead`, `failed` and `cancelled` can all go
  back to `queued` (`services/job_svc/src/job_svc/services/jobs.py:72`), and only `succeeded` is absorbing
  (`JobRows.OnlySucceededAbsorbs`).
- `max_attempts` does not bound the attempts: a claim does not test it and `UpdateJob(queued)` refunds
  nothing. The true bounds carry the number of such requeues (`JobBudgets.ClaimBound`,
  `JobBudgets.ClaimBoundIsReached`).
- `services/orchestrator/README.md:21-24` says the approved turn follows a human's approval. That holds
  for a pause that makes both its writes. After one that does not, failures and retries alone can lead to
  an approved turn, exactly when the row is queued, failed, or running with budget left, or a runner is
  just taking the marker up (`SplitPauses.ApprovedWithoutRequeueIff`); in a job nobody ever requeues,
  exactly when it has a second attempt or a retry (`SplitPauses.NeverRequeuedIff`).
- `services/job_svc/src/job_svc/main.py:71-72` says a heartbeat at a third of the lease tolerates a couple
  of missed renewals. The heartbeat sleeps that third and then writes, so with any time for the writes, any
  wait between claim and start (the jobs of a batch run one after the other), or any clock ahead of the
  runner's, two missed renewals in a row are too many. One is survived exactly while these delays fit into
  a third of the lease, the write time counted twice (`Lease.ThirdOfTheLease`).
- In `services/agent_execution_service/src/agent_execution_service`, `services/tasks.py:13` says approving
  sends RUNNING; `job_client.py:157` sends QUEUED, and so does the model.
- There, `services/tasks.py:62-64` says a finished task's job can no longer change. It can, by a requeue; the
  cache is exact because this service's own requests rewrite the snapshot (`TaskCache.ReadsAreExact`). It
  stays exact under reaps of a live runner that leave the job an attempt. After one that takes the last
  attempt of the automatic budget it can go stale exactly if the runner still has its result to write
  (`StaleTasks.StaleIff`).
- `services/mcp_svc/README.md:97-101` and `services/mcp_svc/src/mcp_svc/handlers.py:230-232` say no shape of
  SELECT can see another tenant's rows. That holds for every query that has no function run a statement given
  as text (`SqlScope.TenantIsolation`). The rewrite renames the tables a query names, and cannot see those
  named in such a text (`SqlLosses.TextSeesEveryRow`, `SqlLosses.TextTellsApart`).
- The rewrite is meant to keep a query's meaning. It renames tables without giving them an alias, so a query
  that qualifies a column by a table's bare name fails; and it puts a table without keys in the place of one
  with a primary key, so a query that reads a column its grouping determines by that key only fails too,
  both whatever the rows (`SqlScope.MeaningKeptIff`, `SqlLosses.OwnNameIsLost`,
  `SqlLosses.GroupedByKeyIsLost`). A quoted name with capitals, which names no table, is answered as if it
  did (`SqlLosses.QuotedNameIsFound`).

## Model

| member | source | states |
|---|---|---|
| `JobRows.SelfDisabling` | services/job_svc/src/job_svc/services/jobs.py:69-89 | every status change refuses an immediate repetition of itself |
| `JobRows.OnlySucceededAbsorbs` | services/job_svc/src/job_svc/services/jobs.py:69-75 | a status is never left by any request exactly if it is `succeeded` |
| `JobStore.JobService.CreateJob` | services/job_svc/src/job_svc/services/jobs.py:104-126 | the row of a new id is queued, has no attempts, retries, lease or progress and carries the given budgets and instructions; no other row changes |
| `JobStore.JobService.GuardedUpdate` | services/job_svc/src/job_svc/services/jobs.py:341-363 | a missing or foreign job is "not found", a wrong status a state error naming it, and both leave the table alone; otherwise exactly that row takes the new values |
| `JobStore.JobService.Update` | services/job_svc/src/job_svc/services/jobs.py:141-162 | each target status is accepted from exactly its sources and otherwise refused; the lease is released on `queued` and `waiting_approval` and kept on the other plain updates; `running` and `failed` go their own ways; every other field and row stays |
| `JobStore.JobService.Start` | services/job_svc/src/job_svc/services/jobs.py:164-181 | queued to running, one attempt more, a lease from now on with no owner |
| `JobStore.JobService.Fail` | services/job_svc/src/job_svc/services/jobs.py:183-196 | a running job lands at queued with attempts left, else at failed with a retry left, else at dead, without a lease |
| `JobStore.JobService.Retry` | services/job_svc/src/job_svc/services/jobs.py:198-215 | only a failed job; one manual retry is charged and the automatic budget starts over |
| `JobStore.JobService.RenewLease` | services/job_svc/src/job_svc/services/jobs.py:304-323 | stamps the lease iff the job is running, says whether it was, changes nothing else |
| `JobStore.JobService.SaveProgress` | services/job_svc/src/job_svc/services/jobs.py:325-339 | overwrites the checkpoint of any existing job, whatever its status, and nothing else |
| `JobStore.JobService.ReapExpired` | services/job_svc/src/job_svc/services/jobs.py:270-302 | a reap is a reported failure of exactly the running jobs whose stamp is older than the lease |
| `JobStore.JobService.ClaimBatch` | services/job_svc/src/job_svc/services/jobs.py:231-268 | claims min(limit, queued) distinct queued jobs, and leaves one behind only if the batch is full of jobs no younger; each claimed row runs, one attempt more, stamped with now and the owner, all else of it and all other rows stay |
| `JobStore.SelectOldest` | services/job_svc/src/job_svc/services/jobs.py:248-254 | the selection is a set of oldest rows, as large as the limit allows |
| `JobStore.OneRow` | services/job_svc/src/job_svc/services/jobs.py:341-363 | a tenant-scoped statement touches at most the row it names, in its tenant |
| `JobStore.OneWinner` | services/job_svc/src/job_svc/services/jobs.py:141-215 | of any number of requests for the same thing, made at whatever moments with nothing between them, the first decides: the table ends as after it and every later one is refused |
| `JobStore.RowsEvolveAlone` | services/job_svc/src/job_svc/services/jobs.py:104-363 | in every reachable table a row is a freshly created job after some events on it alone, whatever happened to other rows |
| `JobBudgets.BudgetAlways` | services/job_svc/src/job_svc/services/jobs.py:78-89 | in every reachable row: retries within the manual budget; `failed` only with the automatic budget spent and a manual retry left; attempts within the automatic budget plus the requeues since its last reset, strictly so while queued; a running job has a lease, a queued, failed or waiting one has none |
| `JobBudgets.ClaimBound` | services/job_svc/src/job_svc/services/jobs.py:164-215 | a job is claimed or started at most (max_retries + 1) * max_attempts + R times, R being its plain requeues |
| `JobBudgets.ClaimBoundIsReached` | services/job_svc/src/job_svc/services/jobs.py:164-215 | that bound is exact: for every job and every R some run reaches it |
| `JobBudgets.CountersCount` | services/job_svc/src/job_svc/services/jobs.py:141-268 | the counters the bounds speak of are the status changes from queued to running and the plain requeues |
| `JobBudgets.PotentialDrops` | services/job_svc/src/job_svc/services/jobs.py:141-215 | every event that changes the status strictly lowers one measure over requeues left, retries left, attempts left and status; the rest never raise it |
| `JobBudgets.TransitionBound` | services/job_svc/src/job_svc/services/jobs.py:141-302 | with R plain requeues a job changes status at most 6R + (2 max_attempts + 3)(max_retries + 1) times |
| `JobBudgets.NoStranding` | services/job_svc/src/job_svc/services/jobs.py:270-302 | in every reachable table a reap with a cutoff after all stamps leaves no job running |
| `JobBudgets.RetryNeverOverspends` | services/job_svc/src/job_svc/services/jobs.py:198-215 | an accepted retry always finds the automatic budget spent and a manual retry left |
| `Claiming.InvAlways` | services/job_svc/src/job_svc/services/jobs.py:231-268 | with any number of pollers locking, committing and aborting in any order: locked jobs are queued, no two claims hold the same one, no job handed out is still queued |
| `Claiming.CommitTakesItsBatch` | services/job_svc/src/job_svc/services/jobs.py:255-268 | a commit moves exactly its batch from queued to running, one attempt, one owner and one stamp each; all other rows stay |
| `Claiming.OldestFirst` | services/job_svc/src/job_svc/services/jobs.py:248-254 | each claimed job is at least as old as every unlocked queued job left behind, and then the batch was full |
| `Claiming.SharedOnlyAfterRequeue` | services/job_svc/src/job_svc/services/jobs.py:231-268 | two batches share a job only if another statement put it back into the queue between their commits |
| `Claiming.Drains` | services/job_svc/src/job_svc/poller.py:104-109 | a fixed backlog shrinks by exactly the limit per claim until it is gone |
| `Checkpoints.StepKeeps` | services/job_svc/src/job_svc/runner.py:148-269 | every single write, call, reply, failed write or crash keeps the checkpoint invariant and takes nothing back from the stored checkpoint |
| `Checkpoints.CheckpointAlways` | services/job_svc/src/job_svc/runner.py:167-232 | after every schedule: recorded steps are exactly 0..k-1 of a non-empty plan, each with its plan item as prompt; a pending marker names step k < len(plan) with its item; the live runner's memory is at most its one pending change ahead of the table |
| `Checkpoints.CheckpointOnlyGrows` | services/job_svc/src/job_svc/runner.py:167-232 | once stored, the plan and the result never change and no recorded step is ever lost or altered |
| `Checkpoints.CalledOnlyWhenMissing` | services/job_svc/src/job_svc/runner.py:190-207 | a step is called only while it is the first one missing from the stored checkpoint, and is flagged approved iff that checkpoint marks it as paused |
| `Checkpoints.BudgetedAlways` | services/job_svc/src/job_svc/services/jobs.py:183-215 | both budgets hold along every schedule of the runner and its environment; runs are bounded by claims |
| `Checkpoints.WorkBound` | services/job_svc/src/job_svc/runner.py:167-232 | whatever the schedule: at most one planning call per claim, at most len(plan) + claims step calls, with claims within the budgets |
| `Checkpoints.ApprovedOnlyAfterRequeue` | services/job_svc/src/job_svc/runner.py:197-220 | for each pause: unless a crash or a failed write kept it from making both its writes, the approved turn comes only after an UpdateJob(queued) that followed its checkpoint |
| `CrashResume.CrashResumeRefines` | services/job_svc/src/job_svc/runner.py:148-242 | every schedule of failures, crashes, reaps, retries, pauses and requeues in which the runner drives the job to succeeded leaves the same progress, in every field, as if nothing had happened |
| `CrashResume.SameAsUninterrupted` | services/job_svc/src/job_svc/runner.py:148-242 | the progress it leaves is that of the uninterrupted run itself, which exists whenever the job succeeds at all |
| `CrashResume.FinishedIsIdeal` | services/job_svc/src/job_svc/runner.py:234-242 | a complete checkpoint without an error is the ideal one: phase, plan, steps, last output as result, no error, no marker |
| `CrashResume.UninterruptedRun` | services/job_svc/src/job_svc/runner.py:148-242 | the uninterrupted run exists, reaches succeeded and leaves that progress |
| `Runner.JobRunner.Ask` | services/job_svc/src/job_svc/runner.py:173-207 | the request sent is the one the machine's call stands for: the instructions for the planner, never approved; the plan item for a step, approved iff the pending marker names it |
| `Runner.JobRunner.Meanwhile` | services/job_svc/src/job_svc/runner.py:123-146 | whatever requests, reaps and renewals reach the job while the runner waits, the runner stands where it stood and the table holds what they did |
| `Runner.JobRunner.SaveCheckpoint` | services/job_svc/src/job_svc/services/jobs.py:325-339 | the checkpoint is stored, or the write fails, changes nothing and raises |
| `Runner.JobRunner.PromptOf` | services/job_svc/src/job_svc/runner.py:271-277 | raises iff the instructions are missing or blank |
| `Runner.JobRunner.EnsurePlan` | services/job_svc/src/job_svc/runner.py:167-188 | reuses a stored plan without a call; otherwise one planning call, an error on an empty plan, and a checkpoint before any step |
| `Runner.JobRunner.ExecuteStep` | services/job_svc/src/job_svc/runner.py:192-232 | one round of the loop: skip a recorded step, else call it and checkpoint the record, the pause, or nothing on an error |
| `Runner.JobRunner.ExecuteSteps` | services/job_svc/src/job_svc/runner.py:190-232 | the loop ends past the last step, or at the first pause or error |
| `Runner.JobRunner.LastIndex` | services/job_svc/src/job_svc/runner.py:239 | the largest integer among the step keys is k-1 |
| `Runner.JobRunner.Conclude` | services/job_svc/src/job_svc/runner.py:235-240 | phase completed, error gone, the last step's output as result, all else kept |
| `Runner.JobRunner.Finalize` | services/job_svc/src/job_svc/runner.py:234-242 | the result is checkpointed before success is reported; success is reported only for a job still running |
| `Runner.JobRunner.Attempt` | services/job_svc/src/job_svc/runner.py:152-156 | prompt, plan, steps and result in this order, up to the first exception |
| `Runner.JobRunner.Execute` | services/job_svc/src/job_svc/runner.py:148-165 | any exception but a pause is checkpointed as the error before it goes on |
| `Runner.JobRunner.RunJob` | services/job_svc/src/job_svc/runner.py:113-135 | a run asks for a plan only if there is none, then for the missing steps in order, the first flagged approved iff the checkpoint marks it; it succeeds only with every step recorded and no chat that failed or paused; it ends waiting only if its last chat asked for approval, with the marker naming that step and reply; after any other exception a running row goes to queued, failed or dead by its budgets, and if no write failed the reason is a failed chat (whose message is the stored error), no plan, no instructions, or a success that could not be reported; whatever others do, it is a run of the checkpoint machine, and it ends |
| `Runner.JobRunner.MarkWaitingApproval` | services/job_svc/src/job_svc/runner.py:244-251 | a row still running waits without a lease; another row stays |
| `Runner.JobRunner.MarkFailure` | services/job_svc/src/job_svc/runner.py:253-260 | a row still running loses its lease and goes to queued with attempts left, else failed with a retry left, else dead; another row stays |
| `RunStory.StoryAlways` | services/job_svc/src/job_svc/runner.py:148-232 | for every run, whatever others do and whichever writes fail: what was asked and answered so far decides where the runner stands, and the requests come in order |
| `RunStory.CallsAreCounted` | services/job_svc/src/job_svc/runner.py:176-207 | the calls the work bound counts are exactly the requests sent |
| `Runner.JobRunner.Report` | services/job_svc/src/job_svc/runner.py:242-269 | the closing status change takes effect only on a job still running in its tenant; otherwise an exception |
| `Poller.JobPoller.Tick` | services/job_svc/src/job_svc/poller.py:76-109 | the batch is the oldest queued jobs after the reap, as many as the limit allows; each is reaped if expired, claimed once and then run by its runner's own moves to the end of a run; others may send requests about every job and reap it meanwhile, in the batch or not; the orchestrator is asked exactly what the runs ask; without a runner nothing changes |
| `Poller.JobPoller.RunBatch` | services/job_svc/src/job_svc/poller.py:107-108 | the claimed rows are run in order, each once, while others act on any job; none is left with a live runner |
| `Poller.JobPoller.Dispatch` | services/job_svc/src/job_svc/poller.py:111-119 | running one claimed job moves that job alone, by one run, and asks what that run asks; a job reaped or cancelled while it waited is run all the same |
| `Poller.JobPoller.Meanwhile` | services/job_svc/src/job_svc/poller.py:104-109 | any requests, reaps and renewals of any jobs between two runs leave the batch in line and add no question to the orchestrator |
| `Poller.JobPoller.Poll` | services/job_svc/src/job_svc/poller.py:57-74 | each tick of the loop does to every job exactly that |
| `Lease.LeaseSafeIff` | services/job_svc/src/job_svc/runner.py:137-146 | attempts at most g apart, at most k missed in a row, started at most d after the claim, clocks at most e ahead: no reaper ever takes an active run iff d + (k+1)g + e <= lease |
| `Lease.ThirdOfTheLease` | services/job_svc/src/job_svc/main.py:71-75 | sleeping a third of the lease between writes that take up to w: two misses are survived iff late start, write time and skew are all zero, one iff d + 2w + e fits into a third of the lease, three never |
| `Lease.StampAge` | services/job_svc/src/job_svc/services/jobs.py:304-323 | a stamp is never older than the late start plus the failed attempts since |
| `Lease.ClaimStartsTheLease` | services/job_svc/src/job_svc/services/jobs.py:255-268 | a claimed row is active under a lease from the moment of the claim, and no reap with an earlier cutoff takes it |
| `Lease.ClaimedRunIsSafe` | services/job_svc/src/job_svc/services/jobs.py:255-302 | from any claim on: no reaper takes the job while its run is active, if the lease covers late start, misses and skew |
| `PlanParser.RoundTrip` | services/job_svc/src/job_svc/runner.py:314-333 | printing any list of non-empty, trimmed one-line items behind any bullets and parsing it gives the list back, even if an item starts with a bullet itself |
| `PlanParser.PlanItemsAreClean` | services/job_svc/src/job_svc/runner.py:329-333 | every item of every parsed plan is non-empty and trimmed |
| `PlanParser.PlanOfJson` | services/job_svc/src/job_svc/runner.py:329-330 | a JSON array gives its items, stripped and without the blank ones, in order; an array of clean items comes back as it is |
| `PlanParser.PlanOfProse` | services/job_svc/src/job_svc/runner.py:332-333 | any other reply gives its lines, without bullets, stripped and without the blank ones, in order; only line breaks are lost in between; a blank reply gives no plan |
| `PlanParser.ParsedPlanSurvives` | services/job_svc/src/job_svc/runner.py:314-333 | every plan parsed from prose can be printed as a list and parsed again without change |
| `PlanParser.BulletComesOff` | services/job_svc/src/job_svc/runner.py:81 | exactly one leading bullet or number goes, with its spaces |
| `PlanParser.BulletsAlone` | services/job_svc/src/job_svc/runner.py:81 | a line loses its leading spaces, bullet and the spaces behind it exactly if it has a bullet; otherwise it stays |
| `ProgressView.SortedKeys` | services/job_svc/src/job_svc/mappers.py:76 | the keys "0".."k-1" in any order sort to numeric order for every k |
| `ProgressView.ViewIsOrdered` | services/job_svc/src/job_svc/mappers.py:61-84 | in every reachable state the step map reads back as exactly steps 0..k-1 in order with their plan items, however it is enumerated |
| `ProgressView.PercentNeverDrops` | services/agent_execution_service/src/agent_execution_service/services/tasks.py:90-98 | over a job's whole life the percentage stays within 0..100 and never goes down |
| `ProgressView.PercentInRange` | services/agent_execution_service/src/agent_execution_service/services/tasks.py:161-171 | never below 0 or above 100, even if more steps are recorded than planned |
| `ProgressView.PercentIs` | services/agent_execution_service/src/agent_execution_service/services/tasks.py:90-98 | in every reachable state: 100 once it has succeeded, 0 without a plan, otherwise the rounded share of the recorded steps |
| `ProgressView.EveryStepShows` | services/agent_execution_service/src/agent_execution_service/services/tasks.py:90-98 | rounded to the nearest tenth, one more step always shows more in a plan of fewer than 1000 |
| `ApprovalGate.AgentToolWorkbench.CallTool` | services/orchestrator/src/orchestrator/mcp_workbench.py:144-201 | a call is forwarded iff the tool is granted and, if it mutates, approved; its answer comes back as it is, a refusal carries the marker, and a tool outside the grants is an error; the pending approvals grow by exactly the refusal of a refused call or the marked answer of a forwarded one |
| `ApprovalGate.PauseIff` | services/orchestrator/src/orchestrator/run.py:88-93 | a turn with any agents and any calls in any order ends as a pause iff some granted call was an unapproved mutation or answered with the marker, or the chat itself said so; otherwise with the chat's own reason, or "stop" |
| `ApprovalGate.SinkOfTurn` | services/orchestrator/src/orchestrator/groupchat.py:181-188 | the gathered approvals are non-empty iff some agent's own call signalled one |
| `ApprovalGate.MutationsAreApproved` | services/orchestrator/src/orchestrator/mcp_workbench.py:161-178 | in every schedule and every chat, planning or not, a mutating call reaches the tool server only in a turn for the very step the stored checkpoint marks as paused, and, unless that pause was split, after a requeue that followed it |
| `ApprovalGate.RefusedTurnNotCompleted` | services/job_svc/src/job_svc/runner.py:208-232 | a turn that refused a call is never recorded as completed, in memory or in the table |
| `SplitPauses.ApprovedWithoutRequeueIff` | services/job_svc/src/job_svc/runner.py:214-251 | exact condition in every reachable state with a marked checkpoint, wherever its runner stands: an approved turn can follow with no UpdateJob(queued) iff a runner is just taking the marker up or the row is queued, failed, or running with attempts or retries left |
| `SplitPauses.NeverRequeuedIff` | services/job_svc/src/job_svc/runner.py:214-251 | exact condition for a whole job: with no UpdateJob(queued) ever, an approved turn is possible iff the job has a second attempt or a retry |
| `SplitPauses.SplitPauseIsApproved` | services/job_svc/src/job_svc/runner.py:214-220 | counterexample for every job and every plan, whatever the budgets: a job cancelled and requeued before its pause is checkpointed runs the step as approved with no requeue after the pause |
| `SqlNames.SameAnswer` | services/mcp_svc/src/mcp_svc/handlers.py:279-281 | calling tables by other names changes neither the rows nor the error, static or not, of any query whose qualifiers are neither old nor new names; without texts to run, the database behind them does not matter |
| `SqlNames.NamesNothing` | services/mcp_svc/src/mcp_svc/handlers.py:279-281 | a query all of whose names resolve, whatever the rows, qualifies nothing by a name no table in it is called by |
| `SqlNames.LooserCols` | services/mcp_svc/src/mcp_svc/handlers.py:242-245 | a query that passes the static checks although no table has a key passes them, with the same columns, whatever keys are declared |
| `SqlScope.ValidateQuery` | services/mcp_svc/src/mcp_svc/handlers.py:247-281 | accepts exactly one plain SELECT without WITH, over at least one table, none with a schema and each `customers` or `invoices` in any case; each refusal comes exactly where its check is the first to fail, and leaves every node alone; an accepted query's nodes, and nothing else, are pointed at their scoped tables in place |
| `SqlScope.CteIsSlice` | services/mcp_svc/src/mcp_svc/handlers.py:242-245 | a WITH clause evaluates to exactly the tenant's rows of its table, in order |
| `SqlScope.SliceIs` | services/mcp_svc/src/mcp_svc/handlers.py:242-245 | the slice holds exactly the rows whose tenant column is the tenant, in order, with all columns |
| `SqlScope.ScopeIsCut` | services/mcp_svc/src/mcp_svc/handlers.py:242-245 | beneath the clauses the scoped names stand for the tenant's slices and all else is as before |
| `SqlScope.LookupNeverFails` | services/mcp_svc/src/mcp_svc/handlers.py:270-280 | every table an accepted query names resolves after the rewrite, whatever its spelling |
| `SqlScope.SourcesOnlyFromCut` | services/mcp_svc/src/mcp_svc/handlers.py:235-245 | each rewritten node, wherever it stands in the query, holds the tenant's slice of the table it named |
| `SqlScope.TenantIsolation` | services/mcp_svc/src/mcp_svc/handlers.py:235-245 | for every query, however shaped, that runs no statement given as text: databases that agree on the tenant's rows give the same answer |
| `SqlScope.RewriteMeansSlice` | services/mcp_svc/src/mcp_svc/handlers.py:248-281 | the rewritten query beneath the clauses answers exactly what the query itself answers on the database cut down to the tenant, if it qualifies by aliases, needs no key and runs no text |
| `SqlScope.MeaningKeptIff` | services/mcp_svc/src/mcp_svc/handlers.py:248-281 | exact condition for every query whose aliases are its own and that runs no text: of those with an answer on the slice, the rewrite keeps exactly the ones that qualify nothing by the bare name of a table and pass the grouping rule without keys; the others fail after the rewrite, and a new name fails before it |
| `SqlLosses.OwnNameIsLost` | services/mcp_svc/src/mcp_svc/handlers.py:279-280 | counterexample for either table, every database and every tenant, even without rows: selecting t.* from t is the slice before and an error after |
| `SqlLosses.ClashIsLost` | services/mcp_svc/src/mcp_svc/handlers.py:279-280 | an alias spelled like a table used under its bare name clashes with it before the rewrite and no longer after it |
| `SqlLosses.GroupedByKeyIsLost` | services/mcp_svc/src/mcp_svc/handlers.py:242-245 | counterexample for every table with a key, every other column, alias, database and tenant: grouping by the key and selecting the column has an answer on the slice and is an error after the rewrite |
| `SqlLosses.QuotedNameIsFound` | services/mcp_svc/src/mcp_svc/handlers.py:270-280 | every quoted spelling that is a table only in lower case is an error before the rewrite and the tenant's slice after it |
| `SqlLosses.TextSeesEveryRow` | services/mcp_svc/src/mcp_svc/handlers.py:258-280 | an accepted query whose function counts the table in a text answers with the count of all tenants' rows beside the tenant's own |
| `SqlLosses.TextTellsApart` | services/mcp_svc/src/mcp_svc/handlers.py:230-232 | for every database, one more row of another tenant leaves the slice alone and changes that query's answer |
| `SqlScope.QueryDatabase` | services/mcp_svc/src/mcp_svc/handlers.py:284-320 | a blank query raises; refusals and database errors come back as failures; otherwise the first 100 rows, their count, and whether more existed, of the rewritten query, which is the query's meaning on the tenant's slice unless it relies on bare names, keys or texts |
| `TaskCache.TaskService.CreateTask` | services/agent_execution_service/src/agent_execution_service/services/tasks.py:118-132 | one queued job and one pending task that names it; coherence is kept |
| `TaskCache.TaskService.Refresh` | services/agent_execution_service/src/agent_execution_service/services/tasks.py:189-217 | exactly the stale tasks whose fetch succeeds take their job's status and result; no change means nothing was written |
| `TaskCache.TaskService.Get` | services/agent_execution_service/src/agent_execution_service/services/tasks.py:134-144 | exactly the tenant's tasks that are asked for are returned, and no other is changed; each whose job can be fetched shows that job's status and result, though finished ones are not fetched; the others show what was stored |
| `TaskCache.SnapshotShows` | services/agent_execution_service/src/agent_execution_service/services/tasks.py:47-59 | completed means succeeded, failed means failed, dead or cancelled; the result is the job's or empty |
| `TaskCache.TaskService.Approve` | services/agent_execution_service/src/agent_execution_service/services/tasks.py:219-222 | requeues the task's job by the guarded update and shows its answer; a foreign or unknown task, or a refusal, changes nothing |
| `TaskCache.TaskService.Retry` | services/agent_execution_service/src/agent_execution_service/services/tasks.py:224-227 | the same for a retry |
| `TaskCache.TaskService.SaveStatus` | services/agent_execution_service/src/agent_execution_service/services/tasks.py:236-249 | the task takes the answered job's status and result, no other task changes; an unknown or foreign task is not found |
| `TaskCache.ReadsAreExact` | services/agent_execution_service/src/agent_execution_service/services/tasks.py:62-65 | after every run of the runner, reaps, reads, approvals and retries in which no reap takes a job's last attempt from its live runner, a read returns exactly the job's current status and result |
| `TaskTables.CoherentAlways` | services/agent_execution_service/src/agent_execution_service/services/tasks.py:134-144 | tables that hold what any run of any number of tasks and jobs led to are coherent, as reads and requests require, if no reap takes a last attempt from a live runner |
| `TaskTables.RequestIsDeed` | services/agent_execution_service/src/agent_execution_service/services/tasks.py:219-227 | what an approval or retry does to the two tables is that act on its task and job alone |
| `TaskTables.ReadsAreDeeds` | services/agent_execution_service/src/agent_execution_service/services/tasks.py:134-144 | what a read does to the task table is a read of each listed task whose fetch succeeds, finished or not |
| `StaleTasks.StaleIff` | services/agent_execution_service/src/agent_execution_service/services/tasks.py:62-65 | exact condition in every reachable state: after a reap that takes the last attempt from a live runner, some further run has a finished snapshot that is not what the job has iff the runner can still write a non-empty result |
| `StaleTasks.EarlyReapGoesStale` | services/agent_execution_service/src/agent_execution_service/services/tasks.py:62-65 | the guard is needed for every job, budget and plan: a run in which only the last attempt is reaped under its runner ends with a read that lacks the job's result |
| `Slugs.SlugSet.Slugify` | services/orchestrator/src/orchestrator/groupchat.py:137-146 | the name's base slug if free, else the base with the least free number from 2 on, found within taken + 1 tries; non-empty, word characters only, not starting with a digit |
| `Slugs.TriedSize` | services/orchestrator/src/orchestrator/groupchat.py:141-144 | the first n candidates are n different strings, which bounds the suffix loop |
| `Slugs.BaseSlugIs` | services/orchestrator/src/orchestrator/groupchat.py:138-140 | what any name becomes, character by character: outer underscores and non-word characters go, inner ones become underscores, nothing becomes "agent", a leading digit gets "a_" |
| `Slugs.SlugsStay` | services/orchestrator/src/orchestrator/groupchat.py:138-140 | a name that is a slug without outer underscores is its own first candidate |
| `Slugs.AddAgents` | services/orchestrator/src/orchestrator/groupchat.py:207-210 | slugs are pairwise distinct, each comes from its own agent's name and maps back to it |
| `Slugs.BuildCast` | services/orchestrator/src/orchestrator/groupchat.py:191-264 | an error iff the tenant has no agents; the planner joins exactly planning turns, the placeholder exactly solo execution turns, under a slug of their own |
| `Slugs.TextIsKept` | services/orchestrator/src/orchestrator/run.py:46-64 | every text message stands in the transcript at its place, under the name its source maps to or else the source |
| `Slugs.SpeakerIsNamed` | services/orchestrator/src/orchestrator/run.py:46-64 | what agent k said stands in the transcript at its place among the text messages, under agent k's name |
| `Redaction.SubCleans` | services/gateway/src/gateway/guardrails.py:83-86 | substituting a pattern leaves no match of it and creates no match of any other |
| `Redaction.OnlyMatchesGo` | services/gateway/src/gateway/guardrails.py:83-86 | the output is the input with disjoint matches, taken from the left and each as long as possible, replaced by the tag and everything else as it was |
| `Redaction.EmailIs` | services/gateway/src/gateway/guardrails.py:25 | the body is exactly a non-empty name and host of the listed characters around "@", then a dot and two or more letters |
| `Redaction.SsnIs` | services/gateway/src/gateway/guardrails.py:26 | the body is exactly three, two and four digits between hyphens |
| `Redaction.CardIs` | services/gateway/src/gateway/guardrails.py:27 | the body is exactly four groups of four digits with a hyphen, a space or nothing between |
| `Redaction.PhoneIs` | services/gateway/src/gateway/guardrails.py:28 | the body is exactly three, three and four digits, with a hyphen, a dot or nothing between |
| `Redaction.MatchIs` | services/gateway/src/gateway/guardrails.py:24-29 | a match is such a body that ends with its word and begins with one, or right behind one if it starts with no word character |
| `Redaction.RedactOfClean` | services/gateway/src/gateway/guardrails.py:83-86 | a text without matches is returned unchanged |
| `Redaction.NothingLeft` | services/gateway/src/gateway/guardrails.py:24-29 | in redacted text none of the four patterns matches anywhere, so redacting again changes nothing |
| `Redaction.RedactPii` | services/gateway/src/gateway/guardrails.py:83-86 | the loop substitutes addresses, then social security, card and phone numbers, and ends with a text none of the four patterns matches |

## Left out

- gRPC servicers, generated stubs, authentication metadata, configuration, logging, process start-up, SQLAlchemy, Postgres and asyncio internals: each statement is one atomic step on a map.
- The LLM, AutoGen speaker selection and termination, HTTP and MCP transport: a chat ends in any way at all, a turn is any list of tool calls, the tool server answers anything.
- Ambiguous commits: a write that reports failure has not happened.
- Two live runners for one job at a time: excluded by hypothesis in the checkpoint theorems; `Lease` says when timing excludes them. During a tick of the poller others reap, renew and send requests about any job, but no second poller claims or runs one; `Claiming` is about several.
- `RunnerDispatcher` for job types without a runner, `list_queued`, `get`, and `updated_at`.
- Unknown target statuses and the edge's input validation: statuses are typed.
- The runner's `progress` dictionary as a dictionary: absent, null and empty entries, which the code only tests for truth, are one value.
- The poller's wait between ticks and a tick that fails as a whole: `Poll` is a list of completed ticks.
- JSON: `json.loads` is a parameter that accepts only text starting with a bracket, and the round trips are about plans printed as plain lists.
- Unicode classes for letters, digits and word characters are parameters with the few facts the proofs need.
- sqlglot's parser and printer, and every SQL feature beyond the language of `SqlModel` (window functions, LATERAL, whole-row references, GROUP BY or ORDER BY an output name or position, aggregates of outer columns, non-integer arithmetic); aliases count as already case-folded.
- SQL row order: a table yields its rows in stored order, where Postgres promises none.
- SQL static errors other than names, column counts and grouping, such as operand types: they arise when a row reaches them. Keys are single columns; grouped expressions count as grouped where they are written the same; a statement given as text has no static checks of its own.
- TenantIsolation: not stated for queries that run a statement given as text, for which it fails (`TextTellsApart`).
- RewriteMeansSlice: not stated for queries that qualify columns by a table's bare name or need a key for their grouping, since the rewrite breaks those (`MeaningKeptIff`), nor for queries with an alias spelled like a table they also use without one (`ClashIsLost`), with quoted names in capitals (`QuotedNameIsFound`), or with statements given as text.
- ReadsAreExact: supposes fetches succeed, one live runner, no reap of a live runner's last attempt (`StaleIff`), and reads that do not overlap an approval or retry of the same task.
- PercentNeverDrops: percentages are tenths under any monotone rounding that keeps the two ends, because float formatting is not the point.
- `http_request` and its address checks, `list_tools`, provider adapters, blocklist and role screening, token counts, agent and tool editing: single-branch checks or plain row edits.
- Texts of error messages and prompts, except those that other code tests.
