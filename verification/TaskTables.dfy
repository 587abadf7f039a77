/** Many tasks and their jobs: what happens to each is a run of its own pair, and tables that show such pairs are
    coherent, as every operation of the task service requires. */
module TaskTables {
  import opened Base
  import opened JobRows
  import opened JobStore
  import opened CheckpointMachine
  import opened ProgressView
  import opened TaskCache

  /** The pairs of all tasks, by task id. */
  type World = map<string, Pair>

  /** One thing that happens to one task or its job. */
  datatype Deed = Birth(id: string, jobId: string, row: Row) | Does(id: string, act: Act)

  function Born(jobId: string, r: Row): Pair { Pair(TaskRow(r.tenant, jobId, PendingTask, ""), Boot(r)) }

  ghost predicate UnusedJob(w: World, jobId: string) { forall id :: id in w ==> w[id].task.jobId != jobId }

  ghost function Deal(parse: string -> seq<string>, w: World, d: Deed): World {
    match d
    case Birth(id, jobId, r) => if id !in w && IsFresh(r) && UnusedJob(w, jobId) then w[id := Born(jobId, r)] else w
    case Does(id, a) => if id in w then w[id := Play(parse, w[id], a)] else w
  }

  ghost function DealAll(parse: string -> seq<string>, deeds: seq<Deed>): World {
    if deeds == [] then map[] else Deal(parse, DealAll(parse, deeds[..|deeds| - 1]), deeds[|deeds| - 1])
  }

  /** No reap takes a job's last attempt from its live runner. */
  ghost predicate Merciful(parse: string -> seq<string>, deeds: seq<Deed>) {
    deeds != [] ==>
      var before, d := deeds[..|deeds| - 1], deeds[|deeds| - 1];
      && Merciful(parse, before)
      && (d.Does? && d.act.JobSide? ==>
            var w := DealAll(parse, before); d.id in w ==> Spares(w[d.id].sys, d.act.m))
  }

  /** The tables hold the pairs: each task as it is, and its job's row in its tenant. */
  ghost predicate Shows(tasks: Tasks, jobs: Table, w: World) {
    && tasks.Keys == w.Keys
    && forall id :: id in w ==>
        && tasks[id] == w[id].task && w[id].task.jobId in jobs
        && jobs[w[id].task.jobId] == Row0(w[id].sys)
  }

  /** Every pair is exact and of one tenant, and no two share a job. */
  ghost predicate Sound(w: World) {
    && (forall id :: id in w ==> Exact(w[id]) && Row0(w[id].sys).tenant == w[id].task.tenant)
    && forall a, b :: a in w && b in w && a != b ==> w[a].task.jobId != w[b].task.jobId
  }

  lemma ShownIsCoherent(tasks: Tasks, jobs: Table, w: World)
    requires Shows(tasks, jobs, w) && Sound(w)
    ensures Coherent(tasks, jobs)
  {
    hide Snapshot;
  }

  /** Nothing a task goes through changes whose it is. */
  lemma PlayKeepsNames(parse: string -> seq<string>, p: Pair, a: Act)
    ensures var q := Play(parse, p, a);
      && q.task.jobId == p.task.jobId && q.task.tenant == p.task.tenant
      && Row0(q.sys).tenant == Row0(p.sys).tenant
  {
  }

  lemma DealSound(parse: string -> seq<string>, w: World, d: Deed)
    requires Sound(w)
    requires d.Does? && d.act.JobSide? && d.id in w ==> Spares(w[d.id].sys, d.act.m)
    ensures Sound(Deal(parse, w, d))
  {
    hide Exact, Play, Spares;
    match d
    case Birth(_, jobId, r) => if IsFresh(r) { BornExact(jobId, r); }
    case Does(id, a) =>
      if id in w {
        PlayExact(parse, w[id], a);
        PlayKeepsNames(parse, w[id], a);
      }
  }

  lemma BornExact(jobId: string, r: Row)
    requires IsFresh(r)
    ensures Exact(Born(jobId, r)) && Row0(Born(jobId, r).sys).tenant == Born(jobId, r).task.tenant
  {
  }

  lemma {:induction false} SoundAlways(parse: string -> seq<string>, deeds: seq<Deed>)
    requires Merciful(parse, deeds)
    ensures Sound(DealAll(parse, deeds))
  {
    if deeds != [] {
      hide Sound, Deal, Spares;
      SoundAlways(parse, deeds[..|deeds| - 1]);
      DealSound(parse, DealAll(parse, deeds[..|deeds| - 1]), deeds[|deeds| - 1]);
    } else {
      assert DealAll(parse, deeds) == map[];
    }
  }

  /** Coherence over whole runs of any number of tasks: tables that hold what any such run led to are coherent. */
  lemma CoherentAlways(parse: string -> seq<string>, deeds: seq<Deed>, tasks: Tasks, jobs: Table)
    requires Merciful(parse, deeds) && Shows(tasks, jobs, DealAll(parse, deeds))
    ensures Coherent(tasks, jobs)
  {
    SoundAlways(parse, deeds);
    hide Sound, Shows;
    ShownIsCoherent(tasks, jobs, DealAll(parse, deeds));
  }

  // ---- The service's methods, the job's own side and these runs ----

  /** Creating a task is its birth. */
  lemma CreateIsBirth(
      parse: string -> seq<string>, w: World, tasks: Tasks, jobs: Table, id: string, jobId: string, r: Row)
    requires Shows(tasks, jobs, w) && id !in tasks && jobId !in jobs && IsFresh(r)
    ensures Shows(tasks[id := TaskRow(r.tenant, jobId, PendingTask, "")], OnTable(jobs, Create(jobId, r)),
                  Deal(parse, w, Birth(id, jobId, r)))
  {
  }

  lemma RequestOnPair(parse: string -> seq<string>, p: Pair, ev: Event)
    requires ev == Moved(Queued) || ev == Retried
    ensures var q, r := Requested(parse, p, ev), Row0(p.sys);
      && Row0(q.sys) == Fire(r, ev)
      && q.task == if Enabled(r, ev) then Snapshot(p.task, Effect(r, ev)) else p.task
  {
    hide RunnerStep;
  }

  /** Approving or retrying a task is its act, whatever the other tasks are. */
  lemma RequestIsDeed(
      parse: string -> seq<string>, w: World, tasks: Tasks, jobs: Table, id: string, act: Act, ev: Event)
    requires Shows(tasks, jobs, w) && Sound(w) && id in w
    requires (act, ev) == (DoApprove, Moved(Queued)) || (act, ev) == (DoRetry, Retried)
    ensures var t := tasks[id];
      var tasks' := match Answer(jobs, Some(t.tenant), t.jobId, ev)
                    case Ok(job) => tasks[id := Snapshot(t, job)]
                    case Err(_) => tasks;
      Shows(tasks', OnTable(jobs, One(Some(t.tenant), t.jobId, ev)), Deal(parse, w, Does(id, act)))
  {
    hide Exact, RunnerStep, Requested;
    var t := w[id].task;
    RequestOnPair(parse, w[id], ev);
    OneRow(jobs, Some(t.tenant), t.jobId, ev);
  }

  /** A read of several tasks is a read of each one listed whose fetch succeeds. */
  lemma ReadsAreDeeds(
      parse: string -> seq<string>, w: World, tasks: Tasks, after: Tasks, jobs: Table, read: set<string>)
    requires Shows(tasks, jobs, w) && Sound(w) && tasks.Keys == after.Keys
    requires forall id :: id in tasks ==>
      after[id] == if id in read then Snapshot(tasks[id], jobs[tasks[id].jobId]) else tasks[id]
    ensures Shows(after, jobs, map id | id in w :: if id in read then Play(parse, w[id], DoGet) else w[id])
  {
  }

  /** A move of one job's own side changes that job's row alone. */
  lemma JobSideIsDeed(
      parse: string -> seq<string>, w: World, tasks: Tasks, jobs: Table, id: string, m: Move)
    requires Shows(tasks, jobs, w) && Sound(w) && id in w && OnJobSide(m)
    ensures var p := w[id];
      Shows(tasks, jobs[p.task.jobId := Row0(After(parse, p.sys, m))], Deal(parse, w, Does(id, JobSide(m))))
  {
  }
}
