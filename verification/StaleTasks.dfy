/** When a reap that takes a job's last attempt from its live runner can leave a finished snapshot stale:
    exactly while that runner still has its result write ahead of it. */
module StaleTasks {
  import opened Base
  import opened Decimal
  import opened Text
  import opened JobRows
  import opened JobStore
  import opened CheckpointMachine
  import opened Checkpoints
  import opened ProgressView
  import opened Schedules
  import opened TaskCache

  /** The finished snapshot is not what the job has: no read will ever correct it. */
  predicate Stale(p: Pair) { Terminal(p.task.status) && p.task != Snapshot(p.task, Row0(p.sys)) }

  /** The last step is not recorded yet, or its output is not empty. */
  predicate LastWordOpen(mem: Progress) {
    mem.plan != [] && (|mem.steps| == |mem.plan| ==>
      var key := Str(|mem.plan| - 1); key in mem.steps && mem.steps[key].output != "")
  }

  /** The live runner can still write a result that a reader would notice. */
  ghost predicate ResultAhead(parse: string -> seq<string>, s: Sys) {
    && s.live.Some? && Stored(s).result.None?
    && var mem := s.live.value.mem;
       match s.live.value.pc
       case Begin =>
         !Blank(Row0(s).instructions) &&
         if mem.plan == [] then exists content :: parse(content) != [] else LastWordOpen(mem)
       case SavePlan | AtStep(_) | SaveStep(_) => LastWordOpen(mem)
       case SaveFinal | SaveError => mem.result.Some? && mem.result.value != ""
       case _ => false
  }

  // ---- With the result ahead, a read in between goes stale ----

  predicate Own(moves: seq<Move>) { forall k :: 0 <= k < |moves| ==> !moves[k].Env? }

  lemma {:induction false} StepsAreOwn(output: string, n: nat)
    ensures Own(Steps(output, n))
  {
    if n > 0 { StepsAreOwn(output, n - 1); }
  }

  /** The runner has told its result, and nothing but the checkpoint has changed. */
  ghost predicate Told(s: Sys, s': Sys) {
    && Row0(s') == Row0(s).(progress := Stored(s'))
    && Stored(s').result.Some? && Stored(s').result.value != ""
  }

  lemma TellNow(parse: string -> seq<string>, s: Sys)
    requires ResultAhead(parse, s) && (s.live.value.pc.SaveFinal? || s.live.value.pc.SaveError?)
    ensures Told(s, After(parse, s, Write(true, "")))
  {
    SavedAtOnce(parse, s);
    hide Str, After;
  }

  lemma TellAtTheEnd(parse: string -> seq<string>, s: Sys)
    requires s.live == Some(Live(AtStep(|Stored(s).plan|), Stored(s)))
    requires |Stored(s).steps| == |Stored(s).plan| && LastWordOpen(Stored(s))
    ensures Told(s, Run(parse, s, [Local, Write(true, "")]))
  {
    var p := Stored(s);
    var p' := Finalized(p);
    assert p'.result.Some? && p'.result.value != "";
    hide Str, Run, After, Finalized, LastWordOpen;
    RunTwo(parse, s, Local, Write(true, ""));
    Finishing(parse, s);
    SavedAtOnce(parse, At(s, SaveFinal, p'));
  }

  lemma SavedAtOnce(parse: string -> seq<string>, s: Sys)
    requires s.live.Some? && (s.live.value.pc.SaveFinal? || s.live.value.pc.SaveError?)
    ensures var s' := After(parse, s, Write(true, "")); Row0(s') == Row0(s).(progress := s.live.value.mem)
  {
    hide Str;
  }

  /** The recorded steps are passed over, the others run. */
  function Finish(output: string, done: nat, missing: nat): seq<Move> {
    Skips(done) + (Steps(output, missing) + [Local, Write(true, "")])
  }

  lemma FinishIsOwn(output: string, done: nat, missing: nat)
    ensures Own(Finish(output, done, missing))
  {
    StepsAreOwn(output, missing);
    hide Steps;
  }

  lemma AheadAtStep(parse: string -> seq<string>, s: Sys)
    requires Checkpointing(s) && ResultAhead(parse, s) && s.live.value.pc.AtStep?
    ensures var p := Stored(s);
      && s.live == Some(Live(s.live.value.pc, p)) && s.live.value.pc.index <= |p.steps| <= |p.plan|
      && Good(p) && p.result.None? && LastWordOpen(p)
  {
    hide Str, Keys;
  }

  lemma RecordedBelow(p: Progress)
    requires Good(p)
    ensures forall j {:trigger Str(j)} :: 0 <= j < |p.steps| ==> Str(j) in p.steps
  {
    hide Good;
    forall j | 0 <= j < |p.steps| ensures Str(j) in p.steps { Recorded(p, j); }
  }

  lemma TellFromStep(parse: string -> seq<string>, s: Sys)
    requires Checkpointing(s) && ResultAhead(parse, s) && s.live.value.pc.AtStep?
    ensures var p := Stored(s);
      && s.live.value.pc.index <= |p.steps| <= |p.plan|
      && Told(s, Run(parse, s, Finish("x", |p.steps| - s.live.value.pc.index, |p.plan| - |p.steps|)))
  {
    hide Str, Keys, Run, After, Checkpointing, ResultAhead, Good, Skips, Steps, Finish, Told, LastWordOpen;
    AheadAtStep(parse, s);
    var p := Stored(s);
    RecordedBelow(p);
    FromStep(parse, s, At(s, AtStep(|p.steps|), p), p.plan, s.live.value.pc.index, |p.steps|);
  }

  lemma FromStep(parse: string -> seq<string>, s: Sys, s1: Sys, plan: seq<string>, i: nat, k: nat)
    requires i <= k <= |plan| && s.live == Some(Live(AtStep(i), Stored(s))) && s1 == At(s, AtStep(k), Stored(s))
    requires Before(s1, plan, k) && LastWordOpen(Stored(s))
    requires forall j :: i <= j < k ==> Str(j) in Stored(s).steps
    ensures Told(s, Run(parse, s, Finish("x", k - i, |plan| - k)))
  {
    var steps, last := Steps("x", |plan| - k), [Local, Write(true, "")];
    assert Stored(s).plan == plan;
    hide Str, Keys, Run, After, Good, Skips, Steps, Before, LastWordOpen;
    Skipped(parse, s, Stored(s), i, k - i);
    RunAppend(parse, s, Skips(k - i), steps + last);
    RunAppend(parse, s1, steps, last);
    TellTheRest(parse, s1, plan, k);
  }

  lemma TellTheRest(parse: string -> seq<string>, s: Sys, plan: seq<string>, k: nat)
    requires Before(s, plan, k) && LastWordOpen(Stored(s))
    ensures Told(s, Run(parse, Run(parse, s, Steps("x", |plan| - k)), [Local, Write(true, "")]))
  {
    hide Str, Keys, Run, After, Steps, Good;
    Worked(parse, s, plan, "x", k, |plan| - k);
    TellAtTheEnd(parse, Run(parse, s, Steps("x", |plan| - k)));
  }

  /** How far the runner is from its first step. */
  function ToFirstStep(pc: Pc): nat {
    match pc
    case Begin => 2
    case SavePlan | SaveStep(_) => 1
    case _ => 0
  }

  /** The next move leaves the result ahead and brings the first step closer. */
  ghost predicate Nearer(parse: string -> seq<string>, s: Sys, s': Sys)
    requires s.live.Some?
  {
    && ResultAhead(parse, s') && ToFirstStep(s'.live.value.pc) < ToFirstStep(s.live.value.pc)
    && Row0(s') == Row0(s).(progress := Stored(s'))
  }

  lemma TellBegin(parse: string -> seq<string>, s: Sys) returns (m: Move)
    requires Checkpointing(s) && ResultAhead(parse, s) && s.live.value.pc.Begin?
    ensures !m.Env? && Nearer(parse, s, After(parse, s, m))
  {
    hide Str, Keys, WriteStep, Blank;
    m := Local;
    if s.live.value.mem.plan == [] {
      var content :| parse(content) != [];
      m := Plan(Reply(content, "stop", ""));
      assert |s.live.value.mem.steps| == 0;
    }
  }

  lemma TellSaving(parse: string -> seq<string>, s: Sys)
    requires Checkpointing(s) && ResultAhead(parse, s) && (s.live.value.pc.SavePlan? || s.live.value.pc.SaveStep?)
    ensures Nearer(parse, s, After(parse, s, Write(true, "")))
  {
    hide Str, Keys, Blank;
  }

  /** The next move of a runner that is about to start or to save. */
  lemma TellNext(parse: string -> seq<string>, s: Sys) returns (m: Move)
    requires Checkpointing(s) && ResultAhead(parse, s) && ToFirstStep(s.live.value.pc) > 0
    ensures !m.Env? && Checkpointing(After(parse, s, m)) && Nearer(parse, s, After(parse, s, m))
  {
    m := Write(true, "");
    if s.live.value.pc.Begin? {
      m := TellBegin(parse, s);
    } else {
      TellSaving(parse, s);
    }
    StepKeeps(parse, s, m);
    hide Checkpointing, After, Nearer;
  }

  lemma TellAtOnce(parse: string -> seq<string>, s: Sys) returns (moves: seq<Move>)
    requires Checkpointing(s) && ResultAhead(parse, s) && ToFirstStep(s.live.value.pc) == 0
    ensures Own(moves) && Told(s, Run(parse, s, moves))
  {
    hide Checkpointing, Run, After, Told, Finish, Str, Keys;
    var pc := s.live.value.pc;
    if pc.AtStep? {
      hide ResultAhead;
      TellFromStep(parse, s);
      var i, k, n := pc.index, |Stored(s).steps|, |Stored(s).plan|;
      FinishIsOwn("x", k - i, n - k);
      moves := Finish("x", k - i, n - k);
    } else {
      assert pc.SaveFinal? || pc.SaveError?;
      hide ResultAhead;
      TellNow(parse, s);
      RunJust(parse, s, Write(true, ""));
      moves := [Write(true, "")];
    }
  }

  lemma {:induction false} Tell(parse: string -> seq<string>, s: Sys) returns (moves: seq<Move>)
    requires Checkpointing(s) && ResultAhead(parse, s)
    ensures Own(moves) && Told(s, Run(parse, s, moves))
    decreases ToFirstStep(s.live.value.pc)
  {
    assert s.live.Some?;
    hide Checkpointing, ResultAhead, Run, After, ToFirstStep;
    if ToFirstStep(s.live.value.pc) == 0 {
      moves := TellAtOnce(parse, s);
    } else {
      var m := TellNext(parse, s);
      var rest := Tell(parse, After(parse, s, m));
      moves := [m] + rest;
      RunJust(parse, s, m);
      RunAppend(parse, s, [m], rest);
    }
  }

  // ---- Without it, no spared run goes stale ----

  /** The snapshot is exact if finished, and stays so. */
  ghost predicate Settled(parse: string -> seq<string>, p: Pair) {
    && Checkpointing(p.sys) && !Stale(p)
    && (p.sys.live.Some? ==>
          Row0(p.sys).status == Running || Row0(p.sys).status == Queued || !ResultAhead(parse, p.sys))
  }

  /** The runner's own moves. */
  predicate ByRunner(m: Move) { m.Local? || m.Plan? || m.Turn? || m.Write? }

  function Shown(p: Progress): string { match p.result case None => "" case Some(output) => output }

  /** Nothing comes ahead, and a reader sees the same. */
  ghost predicate Behind(parse: string -> seq<string>, s: Sys, s': Sys) {
    !ResultAhead(parse, s') && Row0(s').status == Row0(s).status && Shown(Stored(s')) == Shown(Stored(s))
  }

  lemma LocalBehind(parse: string -> seq<string>, s: Sys)
    requires Checkpointing(s) && s.live.Some? && !ResultAhead(parse, s)
    ensures Behind(parse, s, After(parse, s, Local))
  {
    hide Str, Keys, Blank;
    var mem, pc := s.live.value.mem, s.live.value.pc;
    if pc.AtStep? {
      Recorded(mem, pc.index);
    }
  }

  lemma CallBehind(parse: string -> seq<string>, s: Sys, m: Move)
    requires Checkpointing(s) && s.live.Some? && !ResultAhead(parse, s) && (m.Plan? || m.Turn?)
    ensures Behind(parse, s, After(parse, s, m))
  {
    hide Str, Keys, Blank, WriteStep;
    var mem, pc := s.live.value.mem, s.live.value.pc;
    if pc.AtStep? {
      Recorded(mem, pc.index);
    }
  }

  lemma SavedBehind(parse: string -> seq<string>, s: Sys, message: string)
    requires Checkpointing(s) && s.live.Some? && !ResultAhead(parse, s) && Saving(s.live.value.pc)
    ensures Behind(parse, s, After(parse, s, Write(true, message)))
  {
    hide Str, Keys, Blank;
    assert Stored(After(parse, s, Write(true, message))) == s.live.value.mem;
  }

  lemma UnsavedBehind(parse: string -> seq<string>, s: Sys, message: string)
    requires Checkpointing(s) && s.live.Some? && !ResultAhead(parse, s) && Saving(s.live.value.pc)
    ensures Behind(parse, s, After(parse, s, Write(false, message)))
  {
    hide Str, Keys, Blank, Enabled;
  }

  lemma MarkBehind(parse: string -> seq<string>, s: Sys, m: Move)
    requires Checkpointing(s) && s.live.Some? && !ResultAhead(parse, s) && m.Write?
    requires Row0(s).status != Running && !Saving(s.live.value.pc)
    ensures Behind(parse, s, After(parse, s, m))
  {
    hide Str, Keys, Blank, LastWordOpen, Extends, NextStatusAfterFailure;
  }

  lemma WriteBehind(parse: string -> seq<string>, s: Sys, m: Move)
    requires Checkpointing(s) && s.live.Some? && !ResultAhead(parse, s) && m.Write? && Row0(s).status != Running
    ensures Behind(parse, s, After(parse, s, m))
  {
    hide Checkpointing, ResultAhead, Behind, After;
    if Saving(s.live.value.pc) {
      if m.ok { SavedBehind(parse, s, m.message); } else { UnsavedBehind(parse, s, m.message); }
    } else {
      MarkBehind(parse, s, m);
    }
  }

  lemma StaysBehind(parse: string -> seq<string>, s: Sys, m: Move)
    requires Checkpointing(s) && s.live.Some? && !ResultAhead(parse, s) && ByRunner(m)
    requires Row0(s).status != Running
    ensures Behind(parse, s, After(parse, s, m))
  {
    hide Checkpointing, ResultAhead, After, Behind;
    match m
    case Local => LocalBehind(parse, s);
    case Write(_, _) => WriteBehind(parse, s, m);
    case _ => CallBehind(parse, s, m);
  }

  lemma SettledStep(parse: string -> seq<string>, p: Pair, m: Move)
    requires Settled(parse, p) && OnJobSide(m) && Spares(p.sys, m)
    ensures Settled(parse, Pair(p.task, After(parse, p.sys, m)))
  {
    StepKeeps(parse, p.sys, m);
    if Exact(p) {
      JobSideExact(parse, p, m);
      hide Checkpointing, ResultAhead, After;
    } else {
      hide Checkpointing, ResultAhead;
      assert p.sys.live.Some? && Row0(p.sys).status != Running && Row0(p.sys).status != Queued;
      if ByRunner(m) {
        StaysBehind(parse, p.sys, m);
        hide After;
      } else {
        hide RunnerStep;
        OthersBehind(parse, p.sys, m);
      }
    }
  }

  /** A crash ends the runner; nobody else can do anything to the job. */
  lemma OthersBehind(parse: string -> seq<string>, s: Sys, m: Move)
    requires s.live.Some? && Row0(s).status != Running && OnJobSide(m) && !ByRunner(m)
    ensures var s' := After(parse, s, m); Row0(s') == Row0(s) && (s'.live.None? || s' == s.(job := s'.job))
  {
    hide WriteStep, Str, Blank;
  }

  lemma {:induction false} SettledAlways(parse: string -> seq<string>, p: Pair, acts: seq<Act>)
    requires Settled(parse, p) && Spared(parse, p, acts)
    ensures Settled(parse, PlayAll(parse, p, acts))
  {
    if acts != [] {
      SettledAlways(parse, p, acts[..|acts| - 1]);
      var q, a := PlayAll(parse, p, acts[..|acts| - 1]), acts[|acts| - 1];
      match a
      case JobSide(m) => if OnJobSide(m) { SettledStep(parse, q, m); }
      case DoApprove => SettledRequest(parse, q, Moved(Queued));
      case DoRetry => SettledRequest(parse, q, Retried);
      case DoGet =>
    }
  }

  lemma SettledRequest(parse: string -> seq<string>, p: Pair, ev: Event)
    requires Settled(parse, p) && (ev == Moved(Queued) || ev == Retried)
    ensures Settled(parse, Requested(parse, p, ev))
  {
    StepKeeps(parse, p.sys, Env(ev));
    hide Checkpointing, ResultAhead, RunnerStep;
  }

  // ---- The exact condition ----

  lemma PlayCheckpoints(parse: string -> seq<string>, p: Pair, a: Act)
    requires Checkpointing(p.sys)
    ensures Checkpointing(Play(parse, p, a).sys)
  {
    hide Checkpointing, After;
    match a
    case JobSide(m) => StepKeeps(parse, p.sys, m);
    case DoApprove => StepKeeps(parse, p.sys, Env(Moved(Queued)));
    case DoRetry => StepKeeps(parse, p.sys, Env(Retried));
    case DoGet =>
  }

  lemma {:induction false} CheckpointsHold(parse: string -> seq<string>, r: Row, task: TaskRow, acts: seq<Act>)
    requires IsFresh(r)
    ensures Checkpointing(PlayAll(parse, Pair(task, Boot(r)), acts).sys)
  {
    if acts == [] {
      BootIsGood(r);
    } else {
      hide Checkpointing, Play;
      CheckpointsHold(parse, r, task, acts[..|acts| - 1]);
      PlayCheckpoints(parse, PlayAll(parse, Pair(task, Boot(r)), acts[..|acts| - 1]), acts[|acts| - 1]);
    }
  }

  lemma {:induction false} OwnIsSpared(parse: string -> seq<string>, p: Pair, moves: seq<Move>)
    requires Own(moves)
    ensures Spared(parse, p, [DoGet] + JobSides(moves))
    ensures PlayAll(parse, p, [DoGet] + JobSides(moves))
         == PlayAll(parse, Play(parse, p, DoGet), JobSides(moves))
  {
    var acts := [DoGet] + JobSides(moves);
    if moves == [] {
      assert acts[..0] == [] && acts == [DoGet];
      assert PlayAll(parse, p, [DoGet]) == Play(parse, PlayAll(parse, p, []), DoGet);
    } else {
      var front := moves[..|moves| - 1];
      OwnIsSpared(parse, p, front);
      assert acts[..|acts| - 1] == [DoGet] + JobSides(front);
      assert JobSides(moves)[..|moves| - 1] == JobSides(front);
      hide Play;
    }
  }

  lemma SomeRunGoesStale(parse: string -> seq<string>, q: Pair)
    requires Checkpointing(q.sys) && ResultAhead(parse, q.sys)
    requires !Terminal(q.task.status) && TaskStatusOf(Row0(q.sys).status) == FailedTask
    ensures exists more :: Spared(parse, q, more) && Stale(PlayAll(parse, q, more))
  {
    var moves := Tell(parse, q.sys);
    hide Checkpointing, Play, PlayAll, Spared, Run;
    OwnIsSpared(parse, q, moves);
    forall k | 0 <= k < |moves| ensures OnJobSide(moves[k]) {}
    var read := Play(parse, q, DoGet);
    assert read == Pair(read.task, q.sys);
    PlayJobSides(parse, read, moves);
    ToldIsStale(parse, q, Run(parse, q.sys, moves));
  }

  lemma NoRunGoesStale(parse: string -> seq<string>, q: Pair)
    requires Checkpointing(q.sys) && !ResultAhead(parse, q.sys) && !Terminal(q.task.status)
    ensures !exists more :: Spared(parse, q, more) && Stale(PlayAll(parse, q, more))
  {
    hide Checkpointing, ResultAhead, PlayAll, Spared;
    forall more | Spared(parse, q, more) ensures !Stale(PlayAll(parse, q, more)) {
      SettledAlways(parse, q, more);
    }
  }

  /** The exact condition, in every reachable state: a reap takes the last attempt from a live runner. Some spared run
      from there has a finished snapshot without what the job has iff the runner still has its result to write. */
  lemma StaleIff(parse: string -> seq<string>, r: Row, task: TaskRow, acts: seq<Act>, cutoff: int)
    requires IsFresh(r) && Spared(parse, Pair(Snapshot(task, r), Boot(r)), acts)
    requires !Spares(PlayAll(parse, Pair(Snapshot(task, r), Boot(r)), acts).sys, Env(Reaped(cutoff)))
    ensures var p := PlayAll(parse, Pair(Snapshot(task, r), Boot(r)), acts);
      var q := Play(parse, p, JobSide(Env(Reaped(cutoff))));
      (exists more :: Spared(parse, q, more) && Stale(PlayAll(parse, q, more))) <==> ResultAhead(parse, p.sys)
  {
    hide Checkpointing, ResultAhead, Play, PlayAll, Exact, Spares, Spared, After, Stale;
    var p := PlayAll(parse, Pair(Snapshot(task, r), Boot(r)), acts);
    var q := Play(parse, p, JobSide(Env(Reaped(cutoff))));
    ExactAlways(parse, r, task, acts);
    CheckpointsHold(parse, r, Snapshot(task, r), acts);
    StepKeeps(parse, p.sys, Env(Reaped(cutoff)));
    ReapedLast(parse, p, cutoff);
    if ResultAhead(parse, p.sys) {
      SomeRunGoesStale(parse, q);
    } else {
      NoRunGoesStale(parse, q);
    }
  }

  lemma ReapedLast(parse: string -> seq<string>, p: Pair, cutoff: int)
    requires Exact(p) && !Spares(p.sys, Env(Reaped(cutoff)))
    ensures var q := Play(parse, p, JobSide(Env(Reaped(cutoff))));
      && q == Pair(p.task, After(parse, p.sys, Env(Reaped(cutoff))))
      && q.sys.live == p.sys.live && q.sys.live.Some? && Stored(q.sys) == Stored(p.sys)
      && !Terminal(q.task.status) && TaskStatusOf(Row0(q.sys).status) == FailedTask
      && (ResultAhead(parse, q.sys) <==> ResultAhead(parse, p.sys))
  {
    hide Str, Blank, RunnerStep;
  }

  lemma ToldIsStale(parse: string -> seq<string>, q: Pair, s: Sys)
    requires !Terminal(q.task.status) && TaskStatusOf(Row0(q.sys).status) == FailedTask
    requires Stored(q.sys).result.None? && Told(q.sys, s)
    ensures Stale(Pair(Play(parse, q, DoGet).task, s))
  {
  }

  // ---- For every job the guard can be needed ----

  function JobSides(moves: seq<Move>): seq<Act> { seq(|moves|, i requires 0 <= i < |moves| => JobSide(moves[i])) }

  lemma {:induction false} PlayJobSides(parse: string -> seq<string>, p: Pair, moves: seq<Move>)
    requires forall k :: 0 <= k < |moves| ==> OnJobSide(moves[k])
    ensures PlayAll(parse, p, JobSides(moves)) == Pair(p.task, Run(parse, p.sys, moves))
  {
    if moves != [] {
      var front := moves[..|moves| - 1];
      PlayJobSides(parse, p, front);
      assert JobSides(moves)[..|moves| - 1] == JobSides(front);
      hide After;
    }
  }

  /** All attempts but the last are lost; the last runs every step of the plan, up to the final checkpoint. */
  function UpToTheResult(r: Row, content: string, output: string, steps: nat): seq<Move>
    requires r.maxAttempts >= 1
  {
    Losses(r.maxAttempts - 1) + Opening(content) + Steps(output, steps) + [Local]
  }

  lemma {:induction false} StepsOnJobSide(output: string, n: nat)
    ensures forall k :: 0 <= k < |Steps(output, n)| ==> OnJobSide(Steps(output, n)[k])
  {
    if n > 0 { StepsOnJobSide(output, n - 1); }
  }

  lemma {:induction false} LossesOnJobSide(n: nat)
    ensures forall k :: 0 <= k < |Losses(n)| ==> OnJobSide(Losses(n)[k])
  {
    if n > 0 { LossesOnJobSide(n - 1); }
  }

  lemma AboutToFinish(parse: string -> seq<string>, r: Row, content: string, output: string)
    requires IsFresh(r) && !Blank(r.instructions) && parse(content) != []
    ensures var s := Run(parse, Boot(r), UpToTheResult(r, content, output, |parse(content)|));
      && s.live.Some? && s.live.value.pc == SaveFinal && s.live.value.mem.result == Some(output)
      && Row0(s).status == Running && Row0(s).lockedAt == Some(0)
        && Row0(s).attempts == r.maxAttempts == Row0(s).maxAttempts
      && Stored(s).result.None?
  {
    hide Str, Keys, Blank, Run, After, Good, Losses, Opening, Steps;
    var plan := parse(content);
    var a, c := Losses(r.maxAttempts - 1) + Opening(content), Steps(output, |plan|);
    LastAttempt(parse, r, content);
    Worked(parse, Run(parse, Boot(r), a), plan, output, 0, |plan|);
    RunAppend(parse, Boot(r), a, c);
    var s := Run(parse, Boot(r), a + c);
    RunOne(parse, Boot(r), a + c, Local);
    Finishing(parse, s);
  }

  lemma LastAttempt(parse: string -> seq<string>, r: Row, content: string)
    requires IsFresh(r) && !Blank(r.instructions) && parse(content) != []
    ensures var s := Run(parse, Boot(r), Losses(r.maxAttempts - 1) + Opening(content));
      && Before(s, parse(content), 0)
      && Row0(s).status == Running && Row0(s).lockedAt == Some(0)
        && Row0(s).attempts == r.maxAttempts == Row0(s).maxAttempts
  {
    hide Str, Keys, Blank, Run, After, Good, Losses, Opening;
    var plan, a := parse(content), Losses(r.maxAttempts - 1);
    Lost(parse, Boot(r), r.maxAttempts - 1);
    var s := Run(parse, Boot(r), a);
    Opened(parse, s, content);
    RunAppend(parse, Boot(r), a, Opening(content));
    PlannedIsGood(plan);
    ClaimedRow(s.job);
    assert Row0(Run(parse, s, Opening(content)))
      == Effect(Row0(s), Claimed("", 0)).(progress := Planned(NO_PROGRESS, plan));
  }

  lemma PlannedIsGood(plan: seq<string>)
    requires plan != []
    ensures Good(Planned(NO_PROGRESS, plan))
  {
    assert Keys(0) == {};
  }

  /** The reaper takes the last attempt, and the runner writes its result all the same. */
  lemma ReapedThenWritten(parse: string -> seq<string>, s: Sys, output: string)
    requires s.live.Some? && s.live.value.pc == SaveFinal && s.live.value.mem.result == Some(output)
    requires Row0(s).status == Running && Row0(s).lockedAt == Some(0) && Row0(s).attempts >= Row0(s).maxAttempts
    requires Stored(s).result.None?
    ensures var b := After(parse, s, Env(Reaped(1)));
      var c := After(parse, b, Write(true, ""));
      && TaskStatusOf(Row0(b).status) == FailedTask == TaskStatusOf(Row0(c).status)
      && Stored(b).result.None? && Stored(c).result == Some(output)
      && !Spares(s, Env(Reaped(1)))
  {
    hide Str, Blank;
  }

  /** The guard is needed for every job, whatever its budgets, its plan and its task: let all attempts but the last be
      lost, let the last one finish its plan, and let the reaper take it just before the result is written. A read
      in between is then the task's last word: it never shows the result the job has. */
  lemma EarlyReapGoesStale(parse: string -> seq<string>, r: Row, task: TaskRow, content: string, output: string)
    requires IsFresh(r) && !Blank(r.instructions) && parse(content) != [] && output != ""
    ensures var moves := UpToTheResult(r, content, output, |parse(content)|);
      var p0 := Pair(Snapshot(task, r), Boot(r));
      var p := PlayAll(parse, p0, JobSides(moves + [Env(Reaped(1))]) + [DoGet] + [JobSide(Write(true, ""))] + [DoGet]);
      && !Spares(Run(parse, Boot(r), moves), Env(Reaped(1)))
      && p.task != Snapshot(p.task, Row0(p.sys))
  {
    var moves := UpToTheResult(r, content, output, |parse(content)|);
    var p0, reaped := Pair(Snapshot(task, r), Boot(r)), moves + [Env(Reaped(1))];
    AboutToFinish(parse, r, content, output);
    OnlyJobSide(r, content, output, |parse(content)|);
    hide Str, Blank, Run, After, Losses, Steps, Spares, UpToTheResult, PlayAll, Play;
    PlayJobSides(parse, p0, reaped);
    RunOne(parse, Boot(r), moves, Env(Reaped(1)));
    ReapedThenWritten(parse, Run(parse, Boot(r), moves), output);
    var acts := JobSides(reaped);
    PlayMore(parse, p0, acts, DoGet);
    PlayMore(parse, p0, acts + [DoGet], JobSide(Write(true, "")));
    PlayMore(parse, p0, acts + [DoGet] + [JobSide(Write(true, ""))], DoGet);
    StaleRead(parse, Pair(p0.task, Run(parse, Boot(r), reaped)), output);
  }

  lemma PlayMore(parse: string -> seq<string>, p: Pair, acts: seq<Act>, a: Act)
    ensures PlayAll(parse, p, acts + [a]) == Play(parse, PlayAll(parse, p, acts), a)
  {
    assert (acts + [a])[..|acts|] == acts;
  }

  lemma OnlyJobSide(r: Row, content: string, output: string, steps: nat)
    requires r.maxAttempts >= 1
    ensures var moves := UpToTheResult(r, content, output, steps) + [Env(Reaped(1))];
      forall k :: 0 <= k < |moves| ==> OnJobSide(moves[k])
  {
    LossesOnJobSide(r.maxAttempts - 1);
    StepsOnJobSide(output, steps);
    hide Losses, Steps;
  }

  lemma StaleRead(parse: string -> seq<string>, p: Pair, output: string)
    requires !Terminal(p.task.status)
    requires output != "" && TaskStatusOf(Row0(p.sys).status) == FailedTask && Stored(p.sys).result.None?
    requires var c := After(parse, p.sys, Write(true, ""));
      TaskStatusOf(Row0(c).status) == FailedTask && Stored(c).result == Some(output)
    ensures var q := Play(parse, Play(parse, Play(parse, p, DoGet), JobSide(Write(true, ""))), DoGet);
      q.task != Snapshot(q.task, Row0(q.sys))
  {
    hide After;
  }
}
