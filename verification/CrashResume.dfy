/** Crashes, retries and pauses do not change the outcome: a job the runner drives to
    succeeded ends with the checkpoint of the run nothing ever interrupted. */
module CrashResume {
  import opened Base
  import opened Decimal
  import opened Text
  import opened JobRows
  import opened JobStore
  import opened JobBudgets
  import opened CheckpointMachine
  import opened Checkpoints
  import opened Schedules

  datatype Answer = Answer(content: string, finishReason: string, agent: string)

  /** What the orchestrator says when it does succeed: a function of the prompt sent. Whether and
      when it fails or pauses for approval stays arbitrary. */
  datatype World = World(planner: string -> string, answer: string -> Answer)

  function RecordOf(w: World, prompt: string): StepRecord {
    var a := w.answer(prompt);
    StepRecord(prompt, a.content, a.finishReason, a.agent)
  }

  function PlanOf(w: World, parse: string -> seq<string>, instructions: string): seq<string> {
    parse(w.planner(instructions))
  }

  /** The records of the first k steps of a plan. */
  function StepsOf(w: World, plan: seq<string>, k: nat): map<string, StepRecord>
    requires k <= |plan|
  {
    if k == 0 then map[] else StepsOf(w, plan, k - 1)[Str(k - 1) := RecordOf(w, plan[k - 1])]
  }

  /** The checkpoint of a run nothing interrupted, written down without running anything. */
  function Ideal(w: World, plan: seq<string>): Progress
    requires plan != []
  {
    Progress("completed", plan, StepsOf(w, plan, |plan|), None, None, Some(w.answer(plan[|plan| - 1]).content))
  }

  predicate ConsistentMove(w: World, s: Sys, m: Move) {
    match m
    case Plan(Reply(content, _, _)) => content == w.planner(Row0(s).instructions)
    case Turn(Reply(content, finish, agent)) =>
      && finish != APPROVAL && s.live.Some? && s.live.value.pc.AtStep?
      && s.live.value.pc.index < |s.live.value.mem.plan| ==>
        Answer(content, finish, agent) == w.answer(s.live.value.mem.plan[s.live.value.pc.index])
    case _ => true
  }

  /** Every successful reply in the schedule is the world's reply to the prompt that was sent. */
  ghost predicate Consistent(w: World, parse: string -> seq<string>, s: Sys, moves: seq<Move>) {
    moves != [] ==>
      var before := moves[..|moves| - 1];
      Consistent(w, parse, s, before) && ConsistentMove(w, Run(parse, s, before), moves[|moves| - 1])
  }

  ghost predicate Faithful(w: World, plan: seq<string>, p: Progress) {
    && (p.plan != [] ==> p.plan == plan)
    && |p.steps| <= |p.plan|
    && forall i :: 0 <= i < |p.steps| ==> Str(i) in p.steps && p.steps[Str(i)] == RecordOf(w, p.plan[i])
  }

  ghost predicate AllFaithful(w: World, plan: seq<string>, s: Sys) {
    Faithful(w, plan, Stored(s)) && (s.live.Some? ==> Faithful(w, plan, s.live.value.mem))
  }

  lemma CompletedIsFaithful(w: World, plan: seq<string>, p: Progress)
    requires Good(p) && Faithful(w, plan, p) && |p.steps| < |p.plan|
    ensures Faithful(w, plan, Completed(p, |p.steps|, RecordOf(w, p.plan[|p.steps|])))
  {
    hide Str, Keys;
    KeysGrow(p.steps, |p.steps|, RecordOf(w, p.plan[|p.steps|]));
  }

  lemma TurnIsFaithful(w: World, parse: string -> seq<string>, plan: seq<string>, s: Sys, m: Move)
    requires Checkpointing(s) && AllFaithful(w, plan, s) && m.Turn? && ConsistentMove(w, s, m)
    ensures AllFaithful(w, plan, After(parse, s, m))
  {
    hide Keys;
    if Step(parse, s, m).Some? {
      var mem, i := s.live.value.mem, s.live.value.pc.index;
      Recorded(mem, i);
      CompletedIsFaithful(w, plan, mem);
    }
    hide Str;
  }

  lemma FaithfulStep(w: World, parse: string -> seq<string>, s: Sys, m: Move)
    requires Checkpointing(s) && ConsistentMove(w, s, m)
    requires AllFaithful(w, PlanOf(w, parse, Row0(s).instructions), s)
    ensures AllFaithful(w, PlanOf(w, parse, Row0(s).instructions), After(parse, s, m))
  {
    hide Str, Keys, Good, Extends;
    match m
    case Env(ev) => if !ev.Checkpointed? { TrackKeepsProgress(s.job, ev); }
    case Claim(owner, now) => TrackKeepsProgress(s.job, Claimed(owner, now));
    case Turn(_) => TurnIsFaithful(w, parse, PlanOf(w, parse, Row0(s).instructions), s, m);
    case Write(ok, message) => WriteIsFaithful(w, parse, PlanOf(w, parse, Row0(s).instructions), s, m);
    case Plan(_) => PlanIsFaithful(w, parse, s, m);
    case Crash =>
    case Local => hide WriteStep;
  }

  lemma PlanIsFaithful(w: World, parse: string -> seq<string>, s: Sys, m: Move)
    requires Checkpointing(s) && ConsistentMove(w, s, m) && m.Plan?
    requires AllFaithful(w, PlanOf(w, parse, Row0(s).instructions), s)
    ensures AllFaithful(w, PlanOf(w, parse, Row0(s).instructions), After(parse, s, m))
  {
    hide Str, Keys, WriteStep, Extends;
  }

  lemma WriteIsFaithful(w: World, parse: string -> seq<string>, plan: seq<string>, s: Sys, m: Move)
    requires AllFaithful(w, plan, s) && m.Write?
    ensures AllFaithful(w, plan, After(parse, s, m))
  {
    hide Str, Keys, Strip;
    if s.live.Some? && Marking(s.live.value.pc) {
      TrackKeepsProgress(s.job, MarkEvent(s.live.value.pc));
      hide Track, Effect, Enabled;
    }
  }

  lemma {:induction false} FaithfulAlways(w: World, parse: string -> seq<string>, r: Row, moves: seq<Move>)
    requires IsFresh(r) && Consistent(w, parse, Boot(r), moves)
    ensures AllFaithful(w, PlanOf(w, parse, r.instructions), Run(parse, Boot(r), moves))
  {
    if moves != [] {
      var before := moves[..|moves| - 1];
      FaithfulAlways(w, parse, r, before);
      CheckpointAlways(parse, r, before);
      BudgetedAlways(parse, r, before);
      hide Checkpointing, AllFaithful, Budget, LeaseDiscipline, After, ConsistentMove;
      FaithfulStep(w, parse, Run(parse, Boot(r), before), moves[|moves| - 1]);
    }
  }

  ghost predicate Records(w: World, plan: seq<string>, k: nat, steps: map<string, StepRecord>)
    requires k <= |plan|
  {
    && steps.Keys == Keys(k)
    && forall i :: 0 <= i < k ==> Str(i) in steps && steps[Str(i)] == RecordOf(w, plan[i])
  }

  lemma OneMoreRecord(w: World, plan: seq<string>, k: nat, steps: map<string, StepRecord>)
    requires k < |plan| && Records(w, plan, k, steps)
    ensures Records(w, plan, k + 1, steps[Str(k) := RecordOf(w, plan[k])])
  {
    hide Str, Keys, RecordOf;
    KeysSize(k);
    KeysGrow(steps, k, RecordOf(w, plan[k]));
  }

  lemma {:induction false} StepsOfShape(w: World, plan: seq<string>, k: nat)
    requires k <= |plan|
    ensures Records(w, plan, k, StepsOf(w, plan, k))
  {
    if k == 0 {
      assert Keys(0) == {};
    } else {
      hide Records;
      StepsOfShape(w, plan, k - 1);
      OneMoreRecord(w, plan, k - 1, StepsOf(w, plan, k - 1));
    }
  }

  /** A complete, faithful checkpoint without an error is the ideal one, in every field. */
  lemma FinishedIsIdeal(w: World, plan: seq<string>, p: Progress)
    requires Good(p) && Faithful(w, plan, p) && p.phase == "completed" && p.error.None?
    ensures plan != [] && p == Ideal(w, plan)
  {
    StepsOfShape(w, plan, |plan|);
    var ideal := StepsOf(w, plan, |plan|);
    assert p.steps.Keys == ideal.Keys;
    forall key | key in ideal
      ensures p.steps[key] == ideal[key]
    {
      var i :| 0 <= i < |plan| && key == Str(i);
    }
    hide Keys, Str;
    assert p.steps == ideal;
  }

  /** Crash-resume refinement: every consistent schedule in which the runner drives the job to succeeded
      leaves exactly the checkpoint of the uninterrupted run, whatever failed, crashed, paused or was
      retried on the way. */
  lemma CrashResumeRefines(w: World, parse: string -> seq<string>, r: Row, moves: seq<Move>)
    requires IsFresh(r) && Consistent(w, parse, Boot(r), moves)
    requires Run(parse, Boot(r), moves).log.sealed
    ensures var plan := PlanOf(w, parse, r.instructions);
      plan != [] && Stored(Run(parse, Boot(r), moves)) == Ideal(w, plan)
  {
    CheckpointAlways(parse, r, moves);
    FaithfulAlways(w, parse, r, moves);
    hide Good, Str, Keys;
    FinishedIsIdeal(w, PlanOf(w, parse, r.instructions), Stored(Run(parse, Boot(r), moves)));
  }

  // ---- The uninterrupted run ----

  /** The turns and writes for steps from..|plan| in order. */
  function StepMoves(w: World, plan: seq<string>, from: nat): seq<Move>
    requires from <= |plan|
    decreases |plan| - from
  {
    if from == |plan| then [] else
    var a := w.answer(plan[from]);
    [Turn(Reply(a.content, a.finishReason, a.agent)), Write(true, "")] + StepMoves(w, plan, from + 1)
  }

  /** One claim, one planning call, each step once, and the final writes. */
  function Uninterrupted(w: World, parse: string -> seq<string>, instructions: string): seq<Move> {
    [Claim("", 0), Plan(Reply(w.planner(instructions), "stop", "")), Write(true, "")]
      + StepMoves(w, PlanOf(w, parse, instructions), 0)
      + [Local, Write(true, ""), Write(true, "")]
  }

  ghost predicate Playing(w: World, parse: string -> seq<string>, r: Row, moves: seq<Move>, k: nat) {
    var s := Run(parse, Boot(r), moves);
    && Consistent(w, parse, Boot(r), moves)
    && Row0(s).status == Running
    && s.live.Some? && s.live.value.pc == AtStep(k)
    && s.live.value.mem.plan == PlanOf(w, parse, r.instructions)
  }

  lemma Extend(w: World, parse: string -> seq<string>, s: Sys, moves: seq<Move>, m: Move)
    requires Consistent(w, parse, s, moves) && ConsistentMove(w, Run(parse, s, moves), m)
    ensures Consistent(w, parse, s, moves + [m])
    ensures Run(parse, s, moves + [m]) == After(parse, Run(parse, s, moves), m)
  {
    assert (moves + [m])[..|moves|] == moves;
  }

  lemma PlayStep(w: World, parse: string -> seq<string>, r: Row, moves: seq<Move>, k: nat)
    requires IsFresh(r) && Playing(w, parse, r, moves, k) && k < |PlanOf(w, parse, r.instructions)|
    requires k == |Run(parse, Boot(r), moves).live.value.mem.steps|
    requires w.answer(PlanOf(w, parse, r.instructions)[k]).finishReason != APPROVAL
    ensures var a := w.answer(PlanOf(w, parse, r.instructions)[k]);
      var moves' := moves + [Turn(Reply(a.content, a.finishReason, a.agent))] + [Write(true, "")];
      Playing(w, parse, r, moves', k + 1) && k + 1 == |Run(parse, Boot(r), moves').live.value.mem.steps|
  {
    hide Str, Keys, Blank;
    var s := Run(parse, Boot(r), moves);
    var mem, a := s.live.value.mem, w.answer(PlanOf(w, parse, r.instructions)[k]);
    var m := Turn(Reply(a.content, a.finishReason, a.agent));
    CheckpointAlways(parse, r, moves);
    Recorded(mem, k);
    RecordNext(mem, RecordOf(w, mem.plan[k]));
    hide Str, Keys, Blank, Good, Extends, InStep, Checkpointing, Run;
    Extend(w, parse, Boot(r), moves, m);
    Extend(w, parse, Boot(r), moves + [m], Write(true, ""));
  }

  lemma {:induction false} PlayAll(w: World, parse: string -> seq<string>, r: Row, moves: seq<Move>, k: nat)
    requires IsFresh(r) && Playing(w, parse, r, moves, k) && k <= |PlanOf(w, parse, r.instructions)|
    requires k == |Run(parse, Boot(r), moves).live.value.mem.steps|
    requires forall p :: p in PlanOf(w, parse, r.instructions) ==> w.answer(p).finishReason != APPROVAL
    ensures Playing(w, parse, r, moves + StepMoves(w, PlanOf(w, parse, r.instructions), k),
      |PlanOf(w, parse, r.instructions)|)
    decreases |PlanOf(w, parse, r.instructions)| - k
  {
    hide Playing, Run;
    var plan := PlanOf(w, parse, r.instructions);
    if k == |plan| {
      assert moves + StepMoves(w, plan, k) == moves;
    } else {
      var a := w.answer(plan[k]);
      assert plan[k] in plan;
      PlayStep(w, parse, r, moves, k);
      var next := moves + [Turn(Reply(a.content, a.finishReason, a.agent))] + [Write(true, "")];
      PlayAll(w, parse, r, next, k + 1);
      assert moves + StepMoves(w, plan, k) == next + StepMoves(w, plan, k + 1);
    }
  }

  /** The uninterrupted run is a consistent schedule, reaches succeeded, and leaves the ideal checkpoint. */
  lemma UninterruptedRun(w: World, parse: string -> seq<string>, r: Row)
    requires IsFresh(r) && !Blank(r.instructions) && PlanOf(w, parse, r.instructions) != []
    requires forall p :: p in PlanOf(w, parse, r.instructions) ==> w.answer(p).finishReason != APPROVAL
    ensures var moves := Uninterrupted(w, parse, r.instructions);
      && Consistent(w, parse, Boot(r), moves)
      && Run(parse, Boot(r), moves).log.sealed
      && Row0(Run(parse, Boot(r), moves)).status == Succeeded
      && Stored(Run(parse, Boot(r), moves)) == Ideal(w, PlanOf(w, parse, r.instructions))
  {
    var plan := PlanOf(w, parse, r.instructions);
    var first := [Claim("", 0), Plan(Reply(w.planner(r.instructions), "stop", "")), Write(true, "")];
    OpeningMoves(w, parse, r);
    PlayAll(w, parse, r, first, 0);
    var played := first + StepMoves(w, plan, 0);
    ClosingMoves(w, parse, r, played);
    assert Uninterrupted(w, parse, r.instructions) == played + [Local] + [Write(true, "")] + [Write(true, "")];
    CrashResumeRefines(w, parse, r, Uninterrupted(w, parse, r.instructions));
  }

  lemma OpeningMoves(w: World, parse: string -> seq<string>, r: Row)
    requires IsFresh(r) && !Blank(r.instructions) && PlanOf(w, parse, r.instructions) != []
    ensures var moves := [Claim("", 0), Plan(Reply(w.planner(r.instructions), "stop", "")), Write(true, "")];
      && Playing(w, parse, r, moves, 0)
      && |Run(parse, Boot(r), moves).live.value.mem.steps| == 0
  {
    hide Blank, Str, Keys;
    var plan := Plan(Reply(w.planner(r.instructions), "stop", ""));
    Extend(w, parse, Boot(r), [], Claim("", 0));
    assert [] + [Claim("", 0)] == [Claim("", 0)];
    Extend(w, parse, Boot(r), [Claim("", 0)], plan);
    assert [Claim("", 0)] + [plan] == [Claim("", 0), plan];
    Extend(w, parse, Boot(r), [Claim("", 0), plan], Write(true, ""));
    assert [Claim("", 0), plan] + [Write(true, "")] == [Claim("", 0), plan, Write(true, "")];
  }

  lemma ClosingMoves(w: World, parse: string -> seq<string>, r: Row, moves: seq<Move>)
    requires Playing(w, parse, r, moves, |PlanOf(w, parse, r.instructions)|)
    ensures var all := moves + [Local] + [Write(true, "")] + [Write(true, "")];
      && Consistent(w, parse, Boot(r), all)
      && Run(parse, Boot(r), all).log.sealed && Row0(Run(parse, Boot(r), all)).status == Succeeded
  {
    hide Blank, Str, Keys, Run, After, Consistent;
    Extend(w, parse, Boot(r), moves, Local);
    Extend(w, parse, Boot(r), moves + [Local], Write(true, ""));
    Extend(w, parse, Boot(r), moves + [Local] + [Write(true, "")], Write(true, ""));
    Finishing(parse, Run(parse, Boot(r), moves));
    Closed(parse, Run(parse, Boot(r), moves + [Local]));
  }

  /** What a sealed run shows of the world: the job had instructions and no plan item is answered with a pause. */
  lemma SealedWorld(w: World, parse: string -> seq<string>, r: Row, moves: seq<Move>)
    requires IsFresh(r) && Consistent(w, parse, Boot(r), moves)
    requires Run(parse, Boot(r), moves).log.sealed
    ensures var plan := PlanOf(w, parse, r.instructions);
      !Blank(r.instructions) && plan != [] && forall p :: p in plan ==> w.answer(p).finishReason != APPROVAL
  {
    var plan, p := PlanOf(w, parse, r.instructions), Stored(Run(parse, Boot(r), moves));
    CrashResumeRefines(w, parse, r, moves);
    InstructedAlways(parse, r, moves);
    BudgetedAlways(parse, r, moves);
    CheckpointAlways(parse, r, moves);
    StepsOfShape(w, plan, |plan|);
    assert Good(p) && |p.steps| == |plan|;
    hide Str, Keys, Blank, Run, Checkpointing, Budget, LeaseDiscipline;
    forall i | 0 <= i < |plan|
      ensures w.answer(plan[i]).finishReason != APPROVAL
    {
      assert p.steps[Str(i)] == RecordOf(w, plan[i]);
    }
  }

  /** Main result: however a job was interrupted on its way to succeeded, its checkpoint is that of the run which
      was never interrupted. */
  lemma SameAsUninterrupted(w: World, parse: string -> seq<string>, r: Row, moves: seq<Move>)
    requires IsFresh(r) && Consistent(w, parse, Boot(r), moves)
    requires Run(parse, Boot(r), moves).log.sealed
    ensures var plain := Uninterrupted(w, parse, r.instructions);
      && Run(parse, Boot(r), plain).log.sealed
      && Stored(Run(parse, Boot(r), moves)) == Stored(Run(parse, Boot(r), plain))
  {
    hide Run, Blank, Ideal, Consistent, Uninterrupted;
    CrashResumeRefines(w, parse, r, moves);
    SealedWorld(w, parse, r, moves);
    UninterruptedRun(w, parse, r);
  }
}
