/** One job, its runner and everyone else who may touch it, as a transition system whose
    steps are single database writes, single orchestrator calls and crashes. */
module CheckpointMachine {
  import opened Base
  import opened Decimal
  import opened Text
  import opened JobRows
  import opened JobBudgets

  const APPROVAL := "requires_approval"

  /** How an orchestrator call ends. */
  datatype Outcome = Failure(message: string) | Reply(content: string, finishReason: string, agent: string)

  /** Where the live runner stands: about to do the named thing. */
  datatype Pc =
    | Begin
    | SavePlan
    | AtStep(index: nat)
    | SaveStep(index: nat)
    | SavePause
    | MarkWaiting
    | SaveFinal
    | MarkSucceeded
    | SaveError
    | MarkFailed

  /** A live runner: its place and its in-memory `progress`, both lost in a crash. */
  datatype Live = Live(pc: Pc, mem: Progress)

  /** What happened so far. `split`: a crash or a failed write kept the last pause from making both
      its writes. `requeued`: an UpdateJob(queued) took effect after that pause was checkpointed.
      `sealed`: the runner itself moved the job to succeeded. */
  datatype Log = Log(runs: nat, planCalls: nat, turns: nat, requeued: bool, split: bool, sealed: bool)

  datatype Sys = Sys(job: Tracked, live: Option<Live>, log: Log)

  datatype Move =
    | Env(ev: Event)                      // an API call, the reaper or a heartbeat
    | Claim(owner: string, now: int)      // a poller claims the job and a runner starts
    | Crash                               // the process holding the runner dies
    | Local                               // the runner goes on without any I/O
    | Plan(outcome: Outcome)              // the planning call
    | Turn(outcome: Outcome)              // the call for the current step
    | Write(ok: bool, message: string)    // the pending database write, or its failure

  function Row0(s: Sys): Row { s.job.row }

  function Stored(s: Sys): Progress { s.job.row.progress }

  function At(s: Sys, pc: Pc, mem: Progress): Sys { s.(live := Some(Live(pc, mem))) }

  /** An exception inside `_execute`: its text goes into the in-memory progress. */
  function Raise(s: Sys, mem: Progress, message: string): Sys {
    At(s, SaveError, mem.(error := Some(message)))
  }

  function Save(s: Sys, mem: Progress): Sys { s.(job := Track(s.job, Checkpointed(mem))) }

  function Approved(mem: Progress, index: nat): bool {
    mem.pending.Some? && mem.pending.value.step == index
  }

  function Planned(mem: Progress, plan: seq<string>): Progress {
    mem.(plan := plan, phase := "executing")
  }

  function Paused(mem: Progress, index: nat, prompt: string, detail: string): Progress {
    mem.(pending := Some(Pending(index, prompt, detail)))
  }

  function Completed(mem: Progress, index: nat, rec: StepRecord): Progress {
    mem.(pending := None, steps := mem.steps[Str(index) := rec])
  }

  function Finalized(mem: Progress): Progress {
    var key := Str(if |mem.steps| == 0 then 0 else |mem.steps| - 1);
    mem.(phase := "completed", error := None,
         result := if key in mem.steps then Some(mem.steps[key].output) else mem.result)
  }

  /** The effect of a move, or None where the move cannot happen. `parse` turns the planner's
      reply into a plan. A claim needs the job to have no live runner: one runner at a time. */
  function Step(parse: string -> seq<string>, s: Sys, m: Move): Option<Sys> {
    match m
    case Env(ev) =>
      if ev.Claimed? || ev.Checkpointed? then None
      else Some(s.(job := Track(s.job, ev),
                   log := if ev == Moved(Queued) && Enabled(Row0(s), ev) then s.log.(requeued := true) else s.log))
    case Claim(owner, now) =>
      if s.live.Some? || Row0(s).status != Queued then None
      else Some(Sys(Track(s.job, Claimed(owner, now)), Some(Live(Begin, Stored(s))),
                    s.log.(runs := s.log.runs + 1)))
    case _ =>
      if s.live.None? then None else RunnerStep(parse, s, s.live.value, m)
  }

  function RunnerStep(parse: string -> seq<string>, s: Sys, run: Live, m: Move): Option<Sys> {
    var mem := run.mem;
    match m
    case Crash => Some(s.(live := None, log := if run.pc == MarkWaiting then s.log.(split := true) else s.log))
    case Local =>
      (match run.pc
       case Begin =>
         if Blank(Row0(s).instructions) then Some(Raise(s, mem, "no instructions"))
         else if mem.plan != [] then Some(At(s, AtStep(0), mem))
         else None
       case AtStep(i) =>
         if i >= |mem.plan| then Some(At(s, SaveFinal, Finalized(mem)))
         else if Str(i) in mem.steps then Some(At(s, AtStep(i + 1), mem))
         else None
       case _ => None)
    case Plan(outcome) =>
      if run.pc != Begin || Blank(Row0(s).instructions) || mem.plan != [] then None else
      var s' := s.(log := s.log.(planCalls := s.log.planCalls + 1));
      (match outcome
       case Failure(message) => Some(Raise(s', mem, message))
       case Reply(content, _, _) =>
         if parse(content) == [] then Some(Raise(s', mem, "planner returned no sub-prompts"))
         else Some(At(s', SavePlan, Planned(mem, parse(content)))))
    case Turn(outcome) =>
      if !run.pc.AtStep? || run.pc.index >= |mem.plan| || Str(run.pc.index) in mem.steps then None else
      var i := run.pc.index;
      var s' := s.(log := s.log.(turns := s.log.turns + 1));
      (match outcome
       case Failure(message) => Some(Raise(s', mem, message))
       case Reply(content, finish, agent) =>
         if finish == APPROVAL then Some(At(s', SavePause, Paused(mem, i, mem.plan[i], content)))
         else Some(At(s', SaveStep(i), Completed(mem, i, StepRecord(mem.plan[i], content, finish, agent)))))
    case Write(ok, message) => WriteStep(s, run, ok, message)
    case _ => None
  }

  predicate Saving(pc: Pc) {
    pc.SavePlan? || pc.SaveStep? || pc.SaveFinal? || pc.SavePause? || pc.SaveError?
  }

  predicate Marking(pc: Pc) { pc.MarkSucceeded? || pc.MarkWaiting? || pc.MarkFailed? }

  /** Where the runner goes once its checkpoint is written. */
  function NextPc(pc: Pc): Pc
    requires Saving(pc)
  {
    match pc
    case SavePlan => AtStep(0)
    case SaveStep(i) => AtStep(i + 1)
    case SaveFinal => MarkSucceeded
    case SavePause => MarkWaiting
    case SaveError => MarkFailed
  }

  /** The status change the runner reports at the end. */
  function MarkEvent(pc: Pc): Event
    requires Marking(pc)
  {
    match pc
    case MarkSucceeded => Moved(Succeeded)
    case MarkWaiting => Moved(WaitingApproval)
    case MarkFailed => FailReported
  }

  function SaveLog(s: Sys, run: Live): Log {
    if run.pc.SavePause? then s.log.(requeued := false, split := false) else s.log
  }

  function WriteStep(s: Sys, run: Live, ok: bool, message: string): Option<Sys> {
    var mem, pc := run.mem, run.pc;
    if Saving(pc) then
      if ok then Some(At(Save(s, mem), NextPc(pc), mem).(log := SaveLog(s, run)))
      else if pc.SaveError? then Some(At(s, MarkFailed, mem))
      else Some(Raise(if pc.SavePause? then s.(log := s.log.(split := true)) else s, mem, message))
    else if Marking(pc) then
      if ok && Enabled(Row0(s), MarkEvent(pc)) then
        Some(Sys(Track(s.job, MarkEvent(pc)), None,
                 if pc.MarkSucceeded? then s.log.(sealed := true) else s.log))
      else if pc.MarkSucceeded? then Some(Raise(s, mem, message))
      else Some(s.(live := None, log := if pc.MarkWaiting? then s.log.(split := true) else s.log))
    else None
  }

  /** A schedule: moves that cannot happen where they stand change nothing. */
  function After(parse: string -> seq<string>, s: Sys, m: Move): Sys {
    match Step(parse, s, m)
    case None => s
    case Some(s') => s'
  }

  function Run(parse: string -> seq<string>, s: Sys, moves: seq<Move>): Sys {
    if moves == [] then s
    else After(parse, Run(parse, s, moves[..|moves| - 1]), moves[|moves| - 1])
  }

  /** One request to the orchestrator and how it ended. */
  datatype Call = Call(planning: bool, user: string, approved: bool, outcome: Outcome)

  /** The request a move stands for, where it can happen. */
  function CallAt(s: Sys, m: Move): seq<Call> {
    if s.live.None? then [] else
    var run := s.live.value;
    match m
    case Plan(o) =>
      if run.pc.Begin? && !Blank(Row0(s).instructions) && run.mem.plan == [] then
        [Call(true, Row0(s).instructions, false, o)]
      else []
    case Turn(o) =>
      if run.pc.AtStep? && run.pc.index < |run.mem.plan| && Str(run.pc.index) !in run.mem.steps then
        [Call(false, run.mem.plan[run.pc.index], Approved(run.mem, run.pc.index), o)]
      else []
    case _ => []
  }

  function Boot(r: Row): Sys { Sys(JobBudgets.Begin(r), None, Log(0, 0, 0, false, false, false)) }

  lemma {:induction false} RunAppend(parse: string -> seq<string>, s: Sys, a: seq<Move>, b: seq<Move>)
    ensures Run(parse, s, a + b) == Run(parse, Run(parse, s, a), b)
  {
    if b == [] {
      assert a + b == a;
    } else {
      assert (a + b)[..|a + b| - 1] == a + b[..|b| - 1];
      RunAppend(parse, s, a, b[..|b| - 1]);
    }
  }

  lemma RunOne(parse: string -> seq<string>, s: Sys, a: seq<Move>, m: Move)
    ensures Run(parse, s, a + [m]) == After(parse, Run(parse, s, a), m)
  {
    assert (a + [m])[..|a|] == a;
  }

  // ---- The checkpoint invariant ----

  /** A checkpoint records exactly the steps 0..k-1 of its plan, each with that plan item as its
      prompt and none of them a pause; a pending marker names step k and its prompt; the result is
      there exactly when every step is. */
  ghost predicate Good(p: Progress) {
    && |p.steps| <= |p.plan|
    && p.steps.Keys == Keys(|p.steps|)
    && (forall i :: 0 <= i < |p.steps| ==>
          Str(i) in p.steps && p.steps[Str(i)].prompt == p.plan[i] && p.steps[Str(i)].finishReason != APPROVAL)
    && (p.pending.Some? ==>
          && p.pending.value.step == |p.steps| < |p.plan|
          && p.pending.value.prompt == p.plan[|p.steps|])
    && (p.plan == [] ==> p.phase == "")
    && (p.plan != [] ==> p.phase == "executing" || p.phase == "completed")
    && (p.phase == "completed" <==> p.result.Some?)
    && (p.result.Some? ==> |p.steps| == |p.plan| && p.result.value == p.steps[Str(|p.plan| - 1)].output)
  }

  /** `q` knows everything `p` does: same plan and result once there is one, no recorded step lost or altered. */
  ghost predicate Extends(p: Progress, q: Progress) {
    && (p.plan != [] ==> q.plan == p.plan) && (p.result.Some? ==> q.result == p.result)
    && |p.steps| <= |q.steps|
    && forall k :: k in p.steps ==> k in q.steps && q.steps[k] == p.steps[k]
  }

  /** How the runner's memory relates to the stored checkpoint at each place. */
  ghost predicate InStep(stored: Progress, run: Live) {
    var mem := run.mem;
    && Good(mem) && Extends(stored, mem)
    && (match run.pc
        case Begin => mem == stored
        case SavePlan => stored.plan == [] && mem.plan != [] && mem.phase == "executing"
        case AtStep(i) => mem == stored && mem.plan != [] && i <= |mem.steps|
        case SaveStep(i) =>
          && mem.plan != [] && mem.phase == "executing" && mem.pending.None?
          && |mem.steps| == i + 1 && |stored.steps| == i
        case SavePause => mem.pending.Some?
        case MarkWaiting => mem == stored
        case SaveFinal => mem.phase == "completed" && mem.error.None?
        case MarkSucceeded => mem == stored && mem.phase == "completed" && mem.error.None?
        case SaveError => true
        case MarkFailed => true)
  }

  ghost predicate Checkpointing(s: Sys) {
    && Good(Stored(s))
    && (s.live.Some? ==> InStep(Stored(s), s.live.value))
    && (s.log.sealed ==> Row0(s).status == Succeeded && Stored(s).phase == "completed" && Stored(s).error.None?
                         && s.live.None?)
  }

  lemma KeysGrow(m: map<string, StepRecord>, k: nat, rec: StepRecord)
    requires m.Keys == Keys(k) && |m| == k
    ensures var m' := m[Str(k) := rec];
      && m'.Keys == Keys(k + 1) && |m'| == k + 1 && Str(k) !in m
      && forall i :: 0 <= i < k ==> Str(i) in m && m'[Str(i)] == m[Str(i)]
  {
    hide Str, Keys;
    KeysMore(k);
    var m' := m[Str(k) := rec];
    assert m'.Keys == m.Keys + {Str(k)};
    assert |m'.Keys| == |m.Keys| + 1;
    forall i | 0 <= i < k
      ensures Str(i) in m && m'[Str(i)] == m[Str(i)]
    {
      KeyIn(i, k);
    }
  }

  lemma RecordNext(p: Progress, rec: StepRecord)
    requires Good(p) && |p.steps| < |p.plan| && rec.prompt == p.plan[|p.steps|] && rec.finishReason != APPROVAL
    ensures var q := Completed(p, |p.steps|, rec);
      Good(q) && Extends(p, q) && |q.steps| == |p.steps| + 1
  {
    KeysGrow(p.steps, |p.steps|, rec);
  }

  /** A key is recorded iff its index is below the number of recorded steps. */
  lemma Recorded(p: Progress, i: nat)
    requires Good(p)
    ensures Str(i) in p.steps <==> i < |p.steps|
  {
    KeyIn(i, |p.steps|);
  }
}
