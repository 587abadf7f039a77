/** Tasks: an edge-side snapshot of each job's status and result. A snapshot that reads as finished
    is never fetched again; it stays exact all the same. */
module TaskCache {
  import opened Base
  import opened Decimal
  import opened Text
  import opened JobRows
  import opened JobStore
  import opened CheckpointMachine
  import opened ProgressView

  datatype TaskRow = TaskRow(tenant: string, jobId: string, status: TaskStatus, result: string)

  predicate Terminal(s: TaskStatus) { s == CompletedTask || s == FailedTask }

  /** What a fetch of the job says of the task. */
  function Snapshot(task: TaskRow, job: Row): TaskRow {
    task.(status := TaskStatusOf(job.status),
          result := match job.progress.result case None => "" case Some(output) => output)
  }

  /** What the task shows: it counts as completed exactly for a job that succeeded, and as failed for one that is
      failed, dead or cancelled; the result is the job's, or empty. Whose task it is stays. */
  lemma SnapshotShows(task: TaskRow, job: Row)
    ensures var shown := Snapshot(task, job);
      && shown.tenant == task.tenant && shown.jobId == task.jobId
      && (job.progress.result.Some? ==> shown.result == job.progress.result.value)
      && (job.progress.result.None? ==> shown.result == "")
      && (shown.status == CompletedTask <==> job.status == Succeeded)
      && (shown.status == FailedTask <==> job.status in {Failed, Dead, Cancelled})
      && (shown.status == WaitingTask <==> job.status == WaitingApproval)
      && (shown.status == RunningTask <==> job.status == Running)
      && (shown.status == PendingTask <==> job.status == Queued)
  {
  }

  // ---- The service ----

  type Tasks = map<string, TaskRow>

  predicate Listed(t: Tasks, tenant: string, ids: set<string>, id: string) {
    id in t && t[id].tenant == tenant && (ids == {} || id in ids)
  }

  /** Every task names a job of its own tenant. */
  ghost predicate Backed(tasks: Tasks, jobs: Table) {
    forall id :: id in tasks ==> tasks[id].jobId in jobs && jobs[tasks[id].jobId].tenant == tasks[id].tenant
  }

  /** No two tasks stand for the same job. */
  ghost predicate Unshared(tasks: Tasks) {
    forall a, b :: a in tasks && b in tasks && a != b ==> tasks[a].jobId != tasks[b].jobId
  }

  /** The finished snapshots are exact. */
  ghost predicate Coherent(tasks: Tasks, jobs: Table) {
    && Backed(tasks, jobs) && Unshared(tasks)
    && forall id :: id in tasks && Terminal(tasks[id].status) ==>
      tasks[id] == Snapshot(tasks[id], jobs[tasks[id].jobId])
  }

  class TaskService {
    const jobs: JobService
    var tasks: Tasks

    constructor (jobs: JobService)
      ensures this.jobs == jobs && tasks == map[]
    {
      this.jobs, tasks := jobs, map[];
    }

    /** The job first, then the task row. */
    method CreateTask(
        taskId: string, jobId: string, tenant: string, input: string, maxAttempts: nat, maxRetries: nat, now: int)
      requires taskId !in tasks && jobId !in jobs.table && Coherent(tasks, jobs.table)
      modifies this, jobs
      ensures jobs.table == OnTable(old(jobs.table), Create(jobId, Fresh(tenant, input, maxAttempts, maxRetries, now)))
      ensures tasks == old(tasks)[taskId := TaskRow(tenant, jobId, PendingTask, "")]
      ensures Coherent(tasks, jobs.table)
    {
      jobs.CreateJob(jobId, tenant, input, maxAttempts, maxRetries, now);
      var ref := jobs.table[jobId];
      tasks := tasks[taskId := TaskRow(tenant, jobId, TaskStatusOf(ref.status),
                                       match ref.progress.result case None => "" case Some(output) => output)];
    }

    /** Fetches every job first, then writes the snapshots that changed; `reachable` names the tasks whose fetch
        succeeds. */
    method Refresh(stale: set<string>, reachable: set<string>) returns (changed: bool)
      requires Backed(tasks, jobs.table) && stale <= tasks.Keys
      modifies this
      ensures tasks.Keys == old(tasks).Keys && Backed(tasks, jobs.table)
      ensures forall id :: id in tasks ==>
        tasks[id] == if id in stale && id in reachable then Snapshot(old(tasks)[id], jobs.table[old(tasks)[id].jobId])
                     else old(tasks)[id]
      ensures !changed ==> tasks == old(tasks)
    {
      var changes: Tasks := map id | id in stale && id in reachable
                                  && Snapshot(tasks[id], jobs.table[tasks[id].jobId]) != tasks[id]
                                :: Snapshot(tasks[id], jobs.table[tasks[id].jobId]);
      assert forall id :: id in stale && id in reachable && id !in changes ==>
        tasks[id] == Snapshot(tasks[id], jobs.table[tasks[id].jobId]);
      changed := changes != map[];
      if changed {
        tasks := tasks + changes;
      }
    }

    /** The tenant's tasks, or those of them that are asked for; the unfinished ones are refreshed first. No other
        task is shown or changed. */
    method Get(tenant: string, ids: set<string>, reachable: set<string>) returns (found: Tasks)
      requires Coherent(tasks, jobs.table)
      modifies this
      ensures Coherent(tasks, jobs.table)
      ensures forall id :: id in found <==>
        id in old(tasks) && old(tasks)[id].tenant == tenant && (ids == {} || id in ids)
      ensures forall id :: id in found ==> found[id].tenant == tenant
      ensures forall id :: id in old(tasks) && old(tasks)[id].tenant != tenant ==>
        id !in found && id in tasks && tasks[id] == old(tasks)[id]
      ensures forall id :: id in found <==> Listed(old(tasks), tenant, ids, id)
      ensures tasks.Keys == old(tasks).Keys
      ensures forall id :: id in found ==>
        && id in old(tasks) && id in tasks && found[id] == tasks[id]
        && (id in reachable ==> found[id] == Snapshot(old(tasks)[id], jobs.table[old(tasks)[id].jobId]))
        && (id !in reachable ==> found[id] == old(tasks)[id])
      ensures forall id :: id in old(tasks) && id !in found ==> id in tasks && tasks[id] == old(tasks)[id]
    {
      var rows := set id | id in tasks && Listed(tasks, tenant, ids, id);
      var stale := set id | id in rows && !Terminal(tasks[id].status);
      var _ := Refresh(stale, reachable);
      found := map id | id in rows :: tasks[id];
    }

    /** Approving requeues the paused job; the task then shows what the job answered. */
    method Approve(tenant: string, id: string, now: int) returns (r: Result<TaskRow>)
      requires Coherent(tasks, jobs.table)
      modifies this, jobs
      ensures Coherent(tasks, jobs.table)
      ensures id !in old(tasks) || old(tasks)[id].tenant != tenant ==>
        r == Err(NotFound) && tasks == old(tasks) && jobs.table == old(jobs.table)
      ensures id in old(tasks) && old(tasks)[id].tenant == tenant ==>
        var t := old(tasks)[id];
        && jobs.table == OnTable(old(jobs.table), One(Some(tenant), t.jobId, Moved(Queued)))
        && (match Answer(old(jobs.table), Some(tenant), t.jobId, Moved(Queued))
            case Ok(job) => r == Ok(Snapshot(t, job)) && tasks == old(tasks)[id := Snapshot(t, job)]
            case Err(e) => r == Err(e) && tasks == old(tasks))
    {
      if id !in tasks || tasks[id].tenant != tenant {
        return Err(NotFound);
      }
      ghost var before := jobs.table;
      OneRow(jobs.table, Some(tenant), tasks[id].jobId, Moved(Queued));
      var answer := jobs.Update(tenant, tasks[id].jobId, Queued, now);
      match answer {
        case Err(e) => r := Err(e);
        case Ok(job) => r := SaveStatus(tenant, id, job);
      }
    }

    method Retry(tenant: string, id: string) returns (r: Result<TaskRow>)
      requires Coherent(tasks, jobs.table)
      modifies this, jobs
      ensures Coherent(tasks, jobs.table)
      ensures id !in old(tasks) || old(tasks)[id].tenant != tenant ==>
        r == Err(NotFound) && tasks == old(tasks) && jobs.table == old(jobs.table)
      ensures id in old(tasks) && old(tasks)[id].tenant == tenant ==>
        var t := old(tasks)[id];
        && jobs.table == OnTable(old(jobs.table), One(Some(tenant), t.jobId, Retried))
        && (match Answer(old(jobs.table), Some(tenant), t.jobId, Retried)
            case Ok(job) => r == Ok(Snapshot(t, job)) && tasks == old(tasks)[id := Snapshot(t, job)]
            case Err(e) => r == Err(e) && tasks == old(tasks))
    {
      if id !in tasks || tasks[id].tenant != tenant {
        return Err(NotFound);
      }
      OneRow(jobs.table, Some(tenant), tasks[id].jobId, Retried);
      var answer := jobs.Retry(tenant, tasks[id].jobId);
      match answer {
        case Err(e) => r := Err(e);
        case Ok(job) => r := SaveStatus(tenant, id, job);
      }
    }

    method SaveStatus(tenant: string, id: string, job: Row) returns (r: Result<TaskRow>)
      modifies this
      ensures id !in old(tasks) || old(tasks)[id].tenant != tenant ==> r == Err(NotFound) && tasks == old(tasks)
      ensures id in old(tasks) && old(tasks)[id].tenant == tenant ==>
        tasks == old(tasks)[id := Snapshot(old(tasks)[id], job)] && r == Ok(tasks[id])
    {
      if id !in tasks || tasks[id].tenant != tenant {
        return Err(NotFound);
      }
      tasks := tasks[id := tasks[id].(status := TaskStatusOf(job.status),
                                      result := match job.progress.result case None => "" case Some(output) => output)];
      r := Ok(tasks[id]);
    }
  }

  // ---- One task and its job over whole runs ----

  datatype Pair = Pair(task: TaskRow, sys: Sys)

  /** What can happen when only this service and the job's own side act: its runner, crashes, claims, heartbeats
      and the reaper. */
  datatype Act =
    | JobSide(m: Move)
    | DoApprove
    | DoRetry
    | DoGet

  predicate OnJobSide(m: Move) { m.Env? ==> m.ev.Reaped? || m.ev.Renewed? }

  function Requested(parse: string -> seq<string>, p: Pair, ev: Event): Pair {
    if Enabled(Row0(p.sys), ev) then
      var sys := After(parse, p.sys, Env(ev));
      Pair(Snapshot(p.task, Row0(sys)), sys)
    else p
  }

  function Play(parse: string -> seq<string>, p: Pair, a: Act): Pair {
    match a
    case JobSide(m) => if OnJobSide(m) then Pair(p.task, After(parse, p.sys, m)) else p
    case DoApprove => Requested(parse, p, Moved(Queued))
    case DoRetry => Requested(parse, p, Retried)
    case DoGet => if Terminal(p.task.status) then p else p.(task := Snapshot(p.task, Row0(p.sys)))
  }

  function PlayAll(parse: string -> seq<string>, p: Pair, acts: seq<Act>): Pair {
    if acts == [] then p else Play(parse, PlayAll(parse, p, acts[..|acts| - 1]), acts[|acts| - 1])
  }

  /** The reap, if it is one, does not take the last attempt of the automatic budget from a live runner. */
  predicate Spares(s: Sys, m: Move) {
    m.Env? && m.ev.Reaped? && Enabled(Row0(s), m.ev) && s.live.Some? ==> NextStatusAfterFailure(Row0(s)) == Queued
  }

  ghost predicate Spared(parse: string -> seq<string>, p: Pair, acts: seq<Act>) {
    acts != [] ==>
      var before := acts[..|acts| - 1];
      && Spared(parse, p, before)
      && (acts[|acts| - 1].JobSide? ==> Spares(PlayAll(parse, p, before).sys, acts[|acts| - 1].m))
  }

  /** A finished snapshot is exact, and a live runner's job is unfinished. */
  ghost predicate Exact(p: Pair) {
    && (p.sys.live.Some? ==> Row0(p.sys).status == Running || Row0(p.sys).status == Queued)
    && (Terminal(p.task.status) ==> p.task == Snapshot(p.task, Row0(p.sys)))
  }

  /** A job that is at rest in a finished status is not moved by its own side. */
  lemma JobSideExact(parse: string -> seq<string>, p: Pair, m: Move)
    requires Exact(p) && OnJobSide(m) && Spares(p.sys, m)
    ensures Exact(Pair(p.task, After(parse, p.sys, m)))
  {
    hide Str, Keys, Strip;
    match m
    case Write(ok, message) => if p.sys.live.Some? { WriteExact(p, ok, message); }
    case Env(ev) =>
    case Claim(_, _) =>
    case Crash =>
    case Local =>
    case Plan(_) =>
    case Turn(_) =>
  }

  lemma WriteExact(p: Pair, ok: bool, message: string)
    requires Exact(p) && p.sys.live.Some?
    ensures var s := WriteStep(p.sys, p.sys.live.value, ok, message); s.Some? ==> Exact(Pair(p.task, s.value))
  {
  }

  lemma RequestExact(parse: string -> seq<string>, p: Pair, ev: Event)
    requires Exact(p) && (ev == Moved(Queued) || ev == Retried)
    ensures Exact(Requested(parse, p, ev))
  {
    hide RunnerStep;
  }

  lemma PlayExact(parse: string -> seq<string>, p: Pair, a: Act)
    requires Exact(p) && (a.JobSide? ==> Spares(p.sys, a.m))
    ensures Exact(Play(parse, p, a))
  {
    hide After, Requested;
    match a
    case JobSide(m) => if OnJobSide(m) { JobSideExact(parse, p, m); }
    case DoApprove => RequestExact(parse, p, Moved(Queued));
    case DoRetry => RequestExact(parse, p, Retried);
    case DoGet =>
  }

  lemma {:induction false} ExactAlways(parse: string -> seq<string>, r: Row, task: TaskRow, acts: seq<Act>)
    requires IsFresh(r) && Spared(parse, Pair(Snapshot(task, r), Boot(r)), acts)
    ensures Exact(PlayAll(parse, Pair(Snapshot(task, r), Boot(r)), acts))
  {
    if acts != [] {
      ExactAlways(parse, r, task, acts[..|acts| - 1]);
      hide Exact, Play, Spares;
      PlayExact(parse, PlayAll(parse, Pair(Snapshot(task, r), Boot(r)), acts[..|acts| - 1]), acts[|acts| - 1]);
    }
  }

  /** Coherence: after every run in which no reap takes a job's last attempt from its live runner, a read returns
      exactly the job's current status and result, though finished tasks are never fetched again. */
  lemma ReadsAreExact(parse: string -> seq<string>, r: Row, task: TaskRow, acts: seq<Act>)
    requires IsFresh(r) && Spared(parse, Pair(Snapshot(task, r), Boot(r)), acts)
    ensures var p := PlayAll(parse, Pair(Snapshot(task, r), Boot(r)), acts + [DoGet]);
      p.task == Snapshot(p.task, Row0(p.sys))
  {
    ExactAlways(parse, r, task, acts);
    assert (acts + [DoGet])[..|acts|] == acts;
    hide Exact, After;
    assert Exact(PlayAll(parse, Pair(Snapshot(task, r), Boot(r)), acts));
  }
}
