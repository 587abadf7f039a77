/** What holds of one job's checkpoint after every schedule of calls, replies, failed
    writes, crashes, reaps, retries, pauses and requeues. */
module Checkpoints {
  import opened Base
  import opened Decimal
  import opened Text
  import opened JobRows
  import opened JobStore
  import opened JobBudgets
  import opened CheckpointMachine

  /** The step keeps the checkpoint invariant and never takes anything back from the stored checkpoint. */
  ghost predicate Keeps(s: Sys, s': Sys) {
    Checkpointing(s') && Extends(Stored(s), Stored(s'))
  }

  /** Only a checkpoint write changes the progress column, and nothing but one changes a succeeded row. */
  lemma TrackKeepsProgress(t: Tracked, ev: Event)
    requires !ev.Checkpointed?
    ensures Track(t, ev).row.progress == t.row.progress
    ensures t.row.status == Succeeded ==> Track(t, ev).row == t.row
  {
  }

  /** Keeping the stored checkpoint and the live runner keeps everything. */
  lemma SameCheckpoint(s: Sys, s': Sys)
    requires Checkpointing(s) && Stored(s') == Stored(s) && (s'.live.None? || s'.live == s.live)
    requires s'.log.sealed ==> s.log.sealed && Row0(s').status == Succeeded
    ensures Keeps(s, s')
  {
  }

  /** Recording an exception changes only the error text. */
  lemma RaiseKeeps(s: Sys, s0: Sys, message: string)
    requires Checkpointing(s) && s.live.Some? && s0 == s.(log := s0.log) && s0.log.sealed == s.log.sealed
    ensures Keeps(s, Raise(s0, s.live.value.mem, message))
  {
    hide Str, Keys;
    var mem := s.live.value.mem;
    var mem' := mem.(error := Some(message));
    assert Good(mem');
    assert Extends(Stored(s), mem');
  }

  /** Once the pending write is in the table, the runner goes on with what it wrote. */
  lemma SaveKeeps(s: Sys, pc: Pc, log: Log)
    requires Checkpointing(s) && s.live.Some? && log.sealed == s.log.sealed
    requires InStep(s.live.value.mem, Live(pc, s.live.value.mem))
    ensures Keeps(s, At(Save(s, s.live.value.mem), pc, s.live.value.mem).(log := log))
  {
    hide Str, Keys;
    var mem := s.live.value.mem;
    var s' := At(Save(s, mem), pc, mem).(log := log);
    assert Stored(s') == mem && s'.live == Some(Live(pc, mem)) && !s'.log.sealed;
    hide Good, Extends, InStep;
    assert Good(mem) && Extends(Stored(s), mem);
  }

  lemma ExtendsSelf(p: Progress)
    ensures Extends(p, p)
  {
  }

  lemma FinalizeKeeps(s: Sys, p: Progress)
    requires Good(p) && |p.steps| >= |p.plan| && p.plan != []
    ensures Good(Finalized(p)) && Extends(p, Finalized(p))
  {
    Recorded(p, |p.plan| - 1);
    hide Str, Keys;
  }

  lemma LocalKeeps(parse: string -> seq<string>, s: Sys)
    requires Checkpointing(s) && s.live.Some?
    ensures Keeps(s, After(parse, s, Local))
  {
    hide Str, Keys;
    var mem, pc := s.live.value.mem, s.live.value.pc;
    if Step(parse, s, Local).None? {
      SameCheckpoint(s, s);
    } else if pc.Begin? {
      if Blank(Row0(s).instructions) {
        RaiseKeeps(s, s, "no instructions");
      }
    } else {
      Recorded(mem, pc.index);
      if pc.index >= |mem.plan| {
        FinalizeKeeps(s, mem);
      }
    }
  }

  lemma PlanKeeps(parse: string -> seq<string>, s: Sys, outcome: Outcome)
    requires Checkpointing(s) && s.live.Some?
    ensures Keeps(s, After(parse, s, Plan(outcome)))
  {
    hide Str, Keys;
    if Step(parse, s, Plan(outcome)).None? {
      SameCheckpoint(s, s);
    } else {
      var s0 := s.(log := s.log.(planCalls := s.log.planCalls + 1));
      var mem := s.live.value.mem;
      match outcome
      case Failure(message) => RaiseKeeps(s, s0, message);
      case Reply(content, _, _) =>
        if parse(content) == [] {
          RaiseKeeps(s, s0, "planner returned no sub-prompts");
        } else {
          assert Good(Planned(mem, parse(content)));
        }
    }
  }

  lemma TurnKeeps(parse: string -> seq<string>, s: Sys, outcome: Outcome)
    requires Checkpointing(s) && s.live.Some?
    ensures Keeps(s, After(parse, s, Turn(outcome)))
  {
    hide Str, Keys;
    if Step(parse, s, Turn(outcome)).None? {
      SameCheckpoint(s, s);
    } else {
      var s0 := s.(log := s.log.(turns := s.log.turns + 1));
      var mem, i := s.live.value.mem, s.live.value.pc.index;
      Recorded(mem, i);
      match outcome
      case Failure(message) => RaiseKeeps(s, s0, message);
      case Reply(content, finish, agent) =>
        if finish == APPROVAL {
          assert Good(Paused(mem, i, mem.plan[i], content));
        } else {
          RecordNext(mem, StepRecord(mem.plan[i], content, finish, agent));
        }
    }
  }

  /** The status writes of the runner end it and leave the checkpoint alone. */
  lemma MarkKeeps(s: Sys, s': Sys)
    requires Checkpointing(s) && s.live.Some? && s'.live.None? && Stored(s') == Stored(s)
    requires s'.log.sealed ==> s.log.sealed || (s.live.value.pc.MarkSucceeded? && Row0(s').status == Succeeded)
    ensures Keeps(s, s')
  {
    ExtendsSelf(Stored(s));
  }

  lemma SavingKeeps(s: Sys, ok: bool, message: string)
    requires Checkpointing(s) && s.live.Some? && Saving(s.live.value.pc)
    ensures Keeps(s, WriteStep(s, s.live.value, ok, message).value)
  {
    hide Str, Keys;
    var mem, pc := s.live.value.mem, s.live.value.pc;
    if ok {
      ExtendsSelf(mem);
      assert InStep(mem, Live(NextPc(pc), mem));
      hide Good, Extends, InStep;
      SaveKeeps(s, NextPc(pc), SaveLog(s, s.live.value));
    } else if pc.SaveError? {
      LiveError(s);
      ExtendsSelf(Stored(s));
    } else {
      RaiseKeeps(s, if pc.SavePause? then s.(log := s.log.(split := true)) else s, message);
    }
  }

  lemma MarkingKeeps(s: Sys, ok: bool, message: string)
    requires Checkpointing(s) && s.live.Some? && Marking(s.live.value.pc)
    ensures Keeps(s, WriteStep(s, s.live.value, ok, message).value)
  {
    hide Good, Extends, InStep;
    var s' := WriteStep(s, s.live.value, ok, message).value;
    if s'.live.Some? {
      RaiseKeeps(s, s, message);
    } else {
      TrackKeepsProgress(s.job, MarkEvent(s.live.value.pc));
      MarkKeeps(s, s');
    }
  }

  lemma WriteKeeps(parse: string -> seq<string>, s: Sys, ok: bool, message: string)
    requires Checkpointing(s) && s.live.Some?
    ensures Keeps(s, After(parse, s, Write(ok, message)))
  {
    hide Str, Keys;
    if Saving(s.live.value.pc) {
      SavingKeeps(s, ok, message);
    } else if Marking(s.live.value.pc) {
      MarkingKeeps(s, ok, message);
    } else {
      SameCheckpoint(s, s);
    }
    hide Keeps, Saving, Marking;
  }

  lemma LiveError(s: Sys)
    requires Checkpointing(s) && s.live.Some?
    ensures InStep(Stored(s), Live(MarkFailed, s.live.value.mem))
  {
  }

  lemma StepKeeps(parse: string -> seq<string>, s: Sys, m: Move)
    requires Checkpointing(s)
    ensures Keeps(s, After(parse, s, m))
  {
    hide Str, Keys;
    match m
    case Env(ev) => if !ev.Checkpointed? { TrackKeepsProgress(s.job, ev); SameCheckpoint(s, After(parse, s, m)); }
    case Claim(owner, now) => TrackKeepsProgress(s.job, Claimed(owner, now));
    case Crash => SameCheckpoint(s, After(parse, s, m));
    case Local => if s.live.Some? { LocalKeeps(parse, s); }
    case Plan(outcome) => if s.live.Some? { PlanKeeps(parse, s, outcome); }
    case Turn(outcome) => if s.live.Some? { TurnKeeps(parse, s, outcome); }
    case Write(ok, message) => if s.live.Some? { WriteKeeps(parse, s, ok, message); }
  }

  lemma BootIsGood(r: Row)
    requires IsFresh(r)
    ensures Checkpointing(Boot(r))
  {
    assert Keys(0) == {};
  }

  /** The checkpoint invariant holds after every schedule. */
  lemma {:induction false} CheckpointAlways(parse: string -> seq<string>, r: Row, moves: seq<Move>)
    requires IsFresh(r)
    ensures Checkpointing(Run(parse, Boot(r), moves))
  {
    if moves == [] {
      BootIsGood(r);
    } else {
      CheckpointAlways(parse, r, moves[..|moves| - 1]);
      StepKeeps(parse, Run(parse, Boot(r), moves[..|moves| - 1]), moves[|moves| - 1]);
    }
  }

  /** Nothing a checkpoint holds is ever lost: the plan, once stored, never changes, and a recorded step
      stays as recorded whatever happens later. */
  lemma {:induction false} CheckpointOnlyGrows(parse: string -> seq<string>, r: Row, moves: seq<Move>, later: seq<Move>)
    requires IsFresh(r)
    ensures Extends(Stored(Run(parse, Boot(r), moves)), Stored(Run(parse, Boot(r), moves + later)))
  {
    if later == [] {
      assert moves + later == moves;
    } else {
      var rest := later[..|later| - 1];
      CheckpointOnlyGrows(parse, r, moves, rest);
      assert (moves + later)[..|moves + later| - 1] == moves + rest;
      CheckpointAlways(parse, r, moves + rest);
      StepKeeps(parse, Run(parse, Boot(r), moves + rest), later[|later| - 1]);
    }
  }

  /** A step is called only while it is the first one missing from the stored checkpoint, with its plan item,
      and is flagged approved exactly when that checkpoint marks that very step as paused. */
  lemma CalledOnlyWhenMissing(parse: string -> seq<string>, r: Row, moves: seq<Move>, outcome: Outcome)
    requires IsFresh(r)
    requires Step(parse, Run(parse, Boot(r), moves), Turn(outcome)).Some?
    ensures var s := Run(parse, Boot(r), moves);
      && s.live.Some? && s.live.value.pc.AtStep?
      && var i := s.live.value.pc.index;
         && i == |Stored(s).steps| < |Stored(s).plan|
         && Str(i) !in Stored(s).steps
         && s.live.value.mem == Stored(s)
         && (Approved(s.live.value.mem, i) <==> Stored(s).pending.Some?)
  {
    hide Str, Keys;
    CheckpointAlways(parse, r, moves);
    var s := Run(parse, Boot(r), moves);
    Recorded(s.live.value.mem, s.live.value.pc.index);
  }

  /** Only a job with instructions ever gets a plan. */
  ghost predicate Instructed(s: Sys) {
    Stored(s).plan != [] || (s.live.Some? && s.live.value.mem.plan != []) ==> !Blank(Row0(s).instructions)
  }

  lemma InstructedStep(parse: string -> seq<string>, s: Sys, m: Move)
    requires Instructed(s)
    ensures Instructed(After(parse, s, m))
  {
    hide Str, Blank;
    var ev := JobMoves(parse, s, m);
    if ev.Some? {
      TrackFrame(s.job, ev.value);
    }
  }

  lemma {:induction false} InstructedAlways(parse: string -> seq<string>, r: Row, moves: seq<Move>)
    requires IsFresh(r)
    ensures Instructed(Run(parse, Boot(r), moves))
  {
    if moves != [] {
      InstructedAlways(parse, r, moves[..|moves| - 1]);
      hide Instructed, After;
      InstructedStep(parse, Run(parse, Boot(r), moves[..|moves| - 1]), moves[|moves| - 1]);
    }
  }

  // ---- Work bounds ----

  /** To the table, every move of the machine is one event on the job, or none. */
  lemma JobMoves(parse: string -> seq<string>, s: Sys, m: Move) returns (ev: Option<Event>)
    ensures After(parse, s, m).job == if ev.Some? then Track(s.job, ev.value) else s.job
    ensures ev == Some(Moved(Queued)) ==> m == Env(Moved(Queued))
    ensures After(parse, s, m).log.runs == s.log.runs + if ev.Some? && ev.value.Claimed? && s.live.None? && m.Claim?
      && Enabled(Row0(s), ev.value) then 1 else 0
  {
    if Step(parse, s, m).None? {
      return None;
    }
    match m
    case Env(e) => ev := Some(e);
    case Claim(owner, now) => ev := Some(Claimed(owner, now));
    case Write(ok, _) =>
      var run := s.live.value;
      if ok && Saving(run.pc) {
        ev := Some(Checkpointed(run.mem));
      } else if ok && Marking(run.pc) && Enabled(Row0(s), MarkEvent(run.pc)) {
        ev := Some(MarkEvent(run.pc));
      } else {
        ev := None;
      }
    case _ => ev := None;
  }

  lemma {:induction false} BudgetedAlways(parse: string -> seq<string>, r: Row, moves: seq<Move>)
    requires IsFresh(r)
    ensures var t := Run(parse, Boot(r), moves).job;
      && Budget(t) && LeaseDiscipline(t.row)
      && t.row.maxAttempts == r.maxAttempts && t.row.maxRetries == r.maxRetries
      && t.row.instructions == r.instructions
      && Run(parse, Boot(r), moves).log.runs <= t.claims
  {
    if moves != [] {
      BudgetedAlways(parse, r, moves[..|moves| - 1]);
      var s, m := Run(parse, Boot(r), moves[..|moves| - 1]), moves[|moves| - 1];
      hide Budget, LeaseDiscipline;
      hide After;
      var ev := JobMoves(parse, s, m);
      if ev.Some? {
        BudgetStep(s.job, ev.value);
        TrackFrame(s.job, ev.value);
      }
    }
  }

  lemma TrackFrame(t: Tracked, ev: Event)
    ensures var u := Track(t, ev);
      && u.row.maxAttempts == t.row.maxAttempts && u.row.maxRetries == t.row.maxRetries
      && u.row.instructions == t.row.instructions
      && u.claims == t.claims + if Enabled(t.row, ev) && (ev.Claimed? || ev.Started?) then 1 else 0
  {
  }

  /** 1 while the live runner may still make a call this run has not been charged for. */
  function Reserve(live: Option<Live>): nat {
    if live.Some? && (live.value.pc.Begin? || live.value.pc.SavePlan? || live.value.pc.AtStep?
                      || live.value.pc.SaveFinal? || live.value.pc.MarkSucceeded?) then 1 else 0
  }

  /** Every run is charged at most one planning call and one call that recorded no step. */
  ghost predicate Frugal(s: Sys) {
    && s.log.planCalls + (if s.live.Some? && s.live.value.pc.Begin? then 1 else 0) <= s.log.runs
    && s.log.turns + Reserve(s.live) <= |Stored(s).steps| + s.log.runs
  }

  lemma SaveStepAdvances(s: Sys)
    requires Checkpointing(s) && s.live.Some? && s.live.value.pc.SaveStep?
    ensures |s.live.value.mem.steps| == |Stored(s).steps| + 1
  {
  }

  lemma FrugalStep(parse: string -> seq<string>, s: Sys, m: Move)
    requires Checkpointing(s) && Frugal(s)
    ensures Frugal(After(parse, s, m))
  {
    StepKeeps(parse, s, m);
    assert |Stored(s).steps| <= |Stored(After(parse, s, m)).steps|;
    if s.live.Some? && s.live.value.pc.SaveStep? {
      SaveStepAdvances(s);
    }
    hide Checkpointing, Keeps, Good, Extends, InStep;
    FrugalCases(parse, s, m);
  }

  lemma FrugalCases(parse: string -> seq<string>, s: Sys, m: Move)
    requires Frugal(s)
    requires |Stored(s).steps| <= |Stored(After(parse, s, m)).steps|
    requires s.live.Some? && s.live.value.pc.SaveStep? ==> |s.live.value.mem.steps| == |Stored(s).steps| + 1
    ensures Frugal(After(parse, s, m))
  {
    if m.Write? {
      WriteFrugal(parse, s, m);
    } else {
      QuietFrugal(parse, s, m);
    }
  }

  lemma QuietFrugal(parse: string -> seq<string>, s: Sys, m: Move)
    requires Frugal(s) && !m.Write?
    requires |Stored(s).steps| <= |Stored(After(parse, s, m)).steps|
    ensures Frugal(After(parse, s, m))
  {
    hide Str, Keys, WriteStep, Blank;
    if s.live.Some? && (m.Local? || m.Crash?) {
      LocalFrugal(parse, s, m);
    } else if s.live.Some? && (m.Plan? || m.Turn?) {
      CallFrugal(parse, s, m);
    }
  }

  lemma LocalFrugal(parse: string -> seq<string>, s: Sys, m: Move)
    requires Frugal(s) && s.live.Some? && (m.Local? || m.Crash?)
    ensures var s' := RunnerStep(parse, s, s.live.value, m); s'.Some? ==> Frugal(s'.value)
  {
    hide Str, Blank;
  }

  lemma CallFrugal(parse: string -> seq<string>, s: Sys, m: Move)
    requires Frugal(s) && s.live.Some? && (m.Plan? || m.Turn?)
    ensures var s' := RunnerStep(parse, s, s.live.value, m); s'.Some? ==> Frugal(s'.value)
  {
    hide RunnerStep, Frugal;
    if m.Plan? {
      PlanFrugal(parse, s, m.outcome);
    } else {
      TurnFrugal(parse, s, m.outcome);
    }
  }

  lemma PlanFrugal(parse: string -> seq<string>, s: Sys, outcome: Outcome)
    requires Frugal(s) && s.live.Some?
    ensures var s' := RunnerStep(parse, s, s.live.value, Plan(outcome)); s'.Some? ==> Frugal(s'.value)
  {
    hide Str, Blank, Planned;
  }

  lemma TurnFrugal(parse: string -> seq<string>, s: Sys, outcome: Outcome)
    requires Frugal(s) && s.live.Some?
    ensures var s' := RunnerStep(parse, s, s.live.value, Turn(outcome)); s'.Some? ==> Frugal(s'.value)
  {
    hide Str, Blank, Completed, Paused;
  }

  lemma WriteFrugal(parse: string -> seq<string>, s: Sys, m: Move)
    requires Frugal(s) && m.Write?
    requires |Stored(s).steps| <= |Stored(After(parse, s, m)).steps|
    requires s.live.Some? && s.live.value.pc.SaveStep? ==> |s.live.value.mem.steps| == |Stored(s).steps| + 1
    ensures Frugal(After(parse, s, m))
  {
    hide Str, Keys;
    if s.live.Some? {
      if Saving(s.live.value.pc) {
        SaveFrugal(s, m);
      } else if Marking(s.live.value.pc) {
        MarkFrugal(s, m);
      }
    }
  }

  lemma SaveFrugal(s: Sys, m: Move)
    requires Frugal(s) && m.Write? && s.live.Some? && Saving(s.live.value.pc)
    requires var s' := WriteStep(s, s.live.value, m.ok, m.message).value; |Stored(s).steps| <= |Stored(s').steps|
    requires s.live.value.pc.SaveStep? ==> |s.live.value.mem.steps| == |Stored(s).steps| + 1
    ensures Frugal(WriteStep(s, s.live.value, m.ok, m.message).value)
  {
  }

  lemma MarkFrugal(s: Sys, m: Move)
    requires Frugal(s) && m.Write? && s.live.Some? && Marking(s.live.value.pc)
    ensures Frugal(WriteStep(s, s.live.value, m.ok, m.message).value)
  {
    TrackKeepsProgress(s.job, MarkEvent(s.live.value.pc));
  }

  lemma {:induction false} FrugalAlways(parse: string -> seq<string>, r: Row, moves: seq<Move>)
    requires IsFresh(r)
    ensures Frugal(Run(parse, Boot(r), moves))
  {
    if moves != [] {
      FrugalAlways(parse, r, moves[..|moves| - 1]);
      CheckpointAlways(parse, r, moves[..|moves| - 1]);
      hide Frugal, Checkpointing, After;
      FrugalStep(parse, Run(parse, Boot(r), moves[..|moves| - 1]), moves[|moves| - 1]);
    }
  }

  /** The work a job can ever cause, whatever the schedule: at most one planning call per claim, at most one
      call per plan item plus one per claim, and claims bounded by both budgets and the plain requeues. */
  lemma WorkBound(parse: string -> seq<string>, r: Row, moves: seq<Move>)
    requires IsFresh(r)
    ensures var s := Run(parse, Boot(r), moves);
      var claims := (r.maxRetries + 1) * r.maxAttempts + s.job.requeues;
      s.log.planCalls <= s.log.runs <= claims && s.log.turns <= |Stored(s).plan| + claims
  {
    hide Str, Keys, Checkpointing, Good, Budget, LeaseDiscipline, Run, Frugal;
    var s := Run(parse, Boot(r), moves);
    RecordsWithinPlan(parse, r, moves);
    BudgetedAlways(parse, r, moves);
    ClaimsWithin(s.job);
    FrugalAlways(parse, r, moves);
    WithinClaims(s, (r.maxRetries + 1) * r.maxAttempts + s.job.requeues);
  }

  lemma RecordsWithinPlan(parse: string -> seq<string>, r: Row, moves: seq<Move>)
    requires IsFresh(r)
    ensures var p := Stored(Run(parse, Boot(r), moves)); |p.steps| <= |p.plan|
  {
    hide Str, Keys, Run;
    CheckpointAlways(parse, r, moves);
  }

  lemma WithinClaims(s: Sys, claims: nat)
    requires Frugal(s) && s.log.runs <= claims && |Stored(s).steps| <= |Stored(s).plan|
    ensures s.log.planCalls <= s.log.runs && s.log.turns <= |Stored(s).plan| + claims
  {
    hide Str, Keys;
  }

  // ---- The approval gate and the two writes of a pause ----

  /** Unless the last pause was split, a stored pending marker is either awaiting a human or was requeued by one. */
  ghost predicate Gated(s: Sys) {
    !s.log.split && Stored(s).pending.Some? && !s.log.requeued ==>
      if s.live.Some? then s.live.value.pc == MarkWaiting
      else Row0(s).status == WaitingApproval || Row0(s).status == Cancelled
  }

  /** Where a live runner's memory holds a marker the table does not, it is about to write it or failed to. */
  ghost predicate MarkerTracked(s: Sys) {
    s.live.Some? && s.live.value.mem.pending != Stored(s).pending && s.live.value.mem.pending.Some? ==>
      s.live.value.pc.SavePause? || (s.log.split && (s.live.value.pc.SaveError? || s.live.value.pc.MarkFailed?))
  }

  /** What the checkpoint invariant says about pending markers at each place of the runner. */
  ghost predicate MarkersMatch(s: Sys) {
    s.live.Some? ==>
      var pc, mem := s.live.value.pc, s.live.value.mem;
      && (pc.Begin? || pc.AtStep? || pc.MarkWaiting? || pc.MarkSucceeded? ==> mem == Stored(s))
      && (pc.SaveStep? || pc.SaveFinal? ==> mem.pending.None?)
  }

  lemma MarkersMatchAlways(s: Sys)
    requires Checkpointing(s)
    ensures MarkersMatch(s)
  {
  }

  lemma GatedStep(parse: string -> seq<string>, s: Sys, m: Move)
    requires MarkersMatch(s) && Gated(s) && MarkerTracked(s)
    ensures Gated(After(parse, s, m)) && MarkerTracked(After(parse, s, m))
  {
    match m
    case Env(ev) => if !ev.Checkpointed? { TrackKeepsProgress(s.job, ev); GatedEnv(parse, s, ev); }
    case Claim(_, _) =>
    case Crash =>
    case Local =>
    case Plan(_) =>
    case Turn(_) =>
    case Write(_, _) => if Step(parse, s, m).Some? { GatedWrite(s, m); }
  }

  lemma GatedEnv(parse: string -> seq<string>, s: Sys, ev: Event)
    requires MarkersMatch(s) && Gated(s) && MarkerTracked(s) && !ev.Checkpointed?
    ensures Gated(After(parse, s, Env(ev))) && MarkerTracked(After(parse, s, Env(ev)))
  {
  }

  lemma GatedWrite(s: Sys, m: Move)
    requires MarkersMatch(s) && Gated(s) && MarkerTracked(s) && s.live.Some? && m.Write?
    requires WriteStep(s, s.live.value, m.ok, m.message).Some?
    ensures var s' := WriteStep(s, s.live.value, m.ok, m.message).value; Gated(s') && MarkerTracked(s')
  {
  }

  lemma {:induction false} GatedAlways(parse: string -> seq<string>, r: Row, moves: seq<Move>)
    requires IsFresh(r)
    ensures Gated(Run(parse, Boot(r), moves)) && MarkerTracked(Run(parse, Boot(r), moves))
  {
    if moves != [] {
      GatedAlways(parse, r, moves[..|moves| - 1]);
      CheckpointAlways(parse, r, moves[..|moves| - 1]);
      MarkersMatchAlways(Run(parse, Boot(r), moves[..|moves| - 1]));
      hide Gated, MarkerTracked, MarkersMatch, Checkpointing, After;
      GatedStep(parse, Run(parse, Boot(r), moves[..|moves| - 1]), moves[|moves| - 1]);
    }
  }

  /** An approved turn runs only if an UpdateJob(queued) took effect after the job's last pause was checkpointed,
      provided no crash or failed write kept that pause from making both its writes. */
  lemma ApprovedOnlyAfterRequeue(parse: string -> seq<string>, r: Row, moves: seq<Move>, outcome: Outcome)
    requires IsFresh(r)
    requires var s := Run(parse, Boot(r), moves);
      && Step(parse, s, Turn(outcome)).Some?
      && Approved(s.live.value.mem, s.live.value.pc.index)
      && !s.log.split
    ensures Run(parse, Boot(r), moves).log.requeued
  {
    GatedAlways(parse, r, moves);
    CalledOnlyWhenMissing(parse, r, moves, outcome);
  }

  // ---- What the history flags mean ----

  /** The pause's first write gets through. */
  predicate PauseSaved(s: Sys, m: Move) { s.live.Some? && s.live.value.pc.SavePause? && m.Write? && m.ok }

  /** The pause loses one of its writes: the first fails, or the runner dies before the second, or that one fails or is
      refused. */
  predicate PauseBroken(s: Sys, m: Move) {
    s.live.Some? &&
      if s.live.value.pc.SavePause? then m.Write? && !m.ok
      else s.live.value.pc.MarkWaiting? && (m.Crash? || (m.Write? && !(m.ok && Row0(s).status == Running)))
  }

  /** No pause was checkpointed after move k. */
  ghost predicate NoPauseSince(parse: string -> seq<string>, r: Row, moves: seq<Move>, k: nat) {
    forall j :: k < j < |moves| ==> !PauseSaved(Run(parse, Boot(r), moves[..j]), moves[j])
  }

  lemma NoPauseSinceMore(parse: string -> seq<string>, r: Row, moves: seq<Move>, k: nat)
    requires moves != [] && NoPauseSince(parse, r, moves[..|moves| - 1], k)
    requires !PauseSaved(Run(parse, Boot(r), moves[..|moves| - 1]), moves[|moves| - 1])
    ensures NoPauseSince(parse, r, moves, k)
  {
    hide Run, PauseSaved;
    var front := moves[..|moves| - 1];
    forall j | k < j < |moves|
      ensures !PauseSaved(Run(parse, Boot(r), moves[..j]), moves[j])
    {
      if j < |front| {
        assert front[..j] == moves[..j] && front[j] == moves[j];
      }
    }
  }

  lemma FlagsStep(parse: string -> seq<string>, s: Sys, m: Move)
    ensures After(parse, s, m).log.requeued ==>
      || (s.log.requeued && !PauseSaved(s, m))
      || (m == Env(Moved(Queued)) && Row0(s).status in {Failed, Dead, Cancelled, WaitingApproval} && !PauseSaved(s, m))
    ensures After(parse, s, m).log.split ==> (s.log.split && !PauseSaved(s, m)) || PauseBroken(s, m)
  {
    hide Str, Blank;
  }

  /** `requeued`: a plain UpdateJob(queued) took effect, and no pause was checkpointed since. */
  lemma {:induction false} RequeuedMeans(parse: string -> seq<string>, r: Row, moves: seq<Move>) returns (k: nat)
    requires Run(parse, Boot(r), moves).log.requeued
    ensures k < |moves| && moves[k] == Env(Moved(Queued))
    ensures Row0(Run(parse, Boot(r), moves[..k])).status in {Failed, Dead, Cancelled, WaitingApproval}
    ensures NoPauseSince(parse, r, moves, k)
  {
    var front, m := moves[..|moves| - 1], moves[|moves| - 1];
    var s := Run(parse, Boot(r), front);
    hide PauseSaved, PauseBroken, After, NoPauseSince;
    FlagsStep(parse, s, m);
    if s.log.requeued && !PauseSaved(s, m) {
      k := RequeuedMeans(parse, r, front);
      assert front[..k] == moves[..k];
      NoPauseSinceMore(parse, r, moves, k);
    } else {
      k := |front|;
      NoneAfterLast(parse, r, moves);
    }
  }

  lemma NoneAfterLast(parse: string -> seq<string>, r: Row, moves: seq<Move>)
    requires moves != []
    ensures NoPauseSince(parse, r, moves, |moves| - 1)
  {
  }

  /** `split`: a pause lost one of its writes, and no pause was checkpointed since. */
  lemma {:induction false} SplitMeans(parse: string -> seq<string>, r: Row, moves: seq<Move>) returns (k: nat)
    requires Run(parse, Boot(r), moves).log.split
    ensures k < |moves| && PauseBroken(Run(parse, Boot(r), moves[..k]), moves[k])
    ensures NoPauseSince(parse, r, moves, k)
  {
    var front, m := moves[..|moves| - 1], moves[|moves| - 1];
    var s := Run(parse, Boot(r), front);
    hide PauseSaved, PauseBroken, After, NoPauseSince;
    FlagsStep(parse, s, m);
    if s.log.split && !PauseSaved(s, m) {
      k := SplitMeans(parse, r, front);
      assert front[..k] == moves[..k];
      NoPauseSinceMore(parse, r, moves, k);
    } else {
      k := |front|;
      NoneAfterLast(parse, r, moves);
    }
  }
}
