/** One run of a claimed job as the orchestrator and the table see it: what it asks, in which order, and how what
    it is answered decides the way it ends. */
module RunStory {
  import opened Base
  import opened Decimal
  import opened Text
  import opened JobRows
  import opened CheckpointMachine
  import opened Checkpoints

  function CallsOf(parse: string -> seq<string>, s: Sys, moves: seq<Move>): seq<Call> {
    if moves == [] then [] else
    var front := moves[..|moves| - 1];
    CallsOf(parse, s, front) + CallAt(Run(parse, s, front), moves[|moves| - 1])
  }

  /** What a runner does itself: it calls, it writes, it moves on. It neither crashes nor claims. */
  predicate Own(m: Move) { m.Local? || m.Plan? || m.Turn? || m.Write? }

  /** The moves of a run: the runner's own, with requests by others between them. */
  ghost predicate RunOf(moves: seq<Move>) {
    forall k :: 0 <= k < |moves| ==> Own(moves[k]) || moves[k].Env?
  }

  /** Requests by others alone. */
  ghost predicate OthersOnly(moves: seq<Move>) { forall k :: 0 <= k < |moves| ==> moves[k].Env? }

  lemma {:induction false} CallsAppend(parse: string -> seq<string>, s: Sys, a: seq<Move>, b: seq<Move>)
    ensures CallsOf(parse, s, a + b) == CallsOf(parse, s, a) + CallsOf(parse, Run(parse, s, a), b)
  {
    if b == [] {
      assert a + b == a;
    } else {
      var front := b[..|b| - 1];
      assert (a + b)[..|a + b| - 1] == a + front;
      CallsAppend(parse, s, a, front);
      RunAppend(parse, s, a, front);
      hide CallAt;
    }
  }

  lemma {:induction false} OthersAskNothing(parse: string -> seq<string>, s: Sys, moves: seq<Move>)
    requires OthersOnly(moves)
    ensures CallsOf(parse, s, moves) == []
  {
    if moves != [] {
      OthersAskNothing(parse, s, moves[..|moves| - 1]);
      hide Run;
    }
  }

  lemma {:induction false} RunsAreClaims(parse: string -> seq<string>, s: Sys, moves: seq<Move>)
    requires RunOf(moves)
    ensures Run(parse, s, moves).log.runs == s.log.runs
  {
    if moves != [] {
      RunsAreClaims(parse, s, moves[..|moves| - 1]);
      var ev := JobMoves(parse, Run(parse, s, moves[..|moves| - 1]), moves[|moves| - 1]);
      hide After;
    }
  }

  lemma RowIdentity(parse: string -> seq<string>, s: Sys, m: Move)
    ensures Row0(After(parse, s, m)).tenant == Row0(s).tenant
    ensures Row0(After(parse, s, m)).instructions == Row0(s).instructions
  {
    hide Str, Strip;
    var ev := JobMoves(parse, s, m);
    hide After;
  }

  // ---- How a run ends ----

  predicate Pauses(c: Call) { !c.planning && c.outcome.Reply? && c.outcome.finishReason == APPROVAL }

  /** Every chat ended with a reply, and no step asked for approval. */
  predicate Smooth(calls: seq<Call>) {
    forall k :: 0 <= k < |calls| ==> calls[k].outcome.Reply? && !Pauses(calls[k])
  }

  /** Only the last chat, a step's, asked for approval, and the marker says which step and what it said. */
  predicate Asking(calls: seq<Call>, p: Progress) {
    && calls != [] && Smooth(calls[..|calls| - 1])
    && var last := calls[|calls| - 1];
       && Pauses(last) && p.pending.Some?
       && p.pending.value.prompt == last.user && p.pending.value.detail == last.outcome.content
  }

  /** Why a run whose writes all get through can end in an exception: it has no instructions, its last chat failed or
      yielded no plan, or it finished its plan and success could not be reported. */
  predicate Hopeless(parse: string -> seq<string>, instructions: string, calls: seq<Call>, p: Progress) {
    || (calls == [] && Blank(instructions))
    || (calls != [] && calls[|calls| - 1].outcome.Failure?)
    || (|calls| == 1 && calls[0].planning && calls[0].outcome.Reply? && parse(calls[0].outcome.content) == [])
    || (Smooth(calls) && p.phase == "completed")
  }

  /** Only the last chat can have failed, and then the error is its message. */
  predicate Failing(calls: seq<Call>, p: Progress) {
    && p.error.Some?
    && (calls != [] ==>
          && Smooth(calls[..|calls| - 1])
          && (calls[|calls| - 1].outcome.Failure? ==> p.error == Some(calls[|calls| - 1].outcome.message)))
  }

  /** What the chats so far say about where the runner stands. `calm`: no write has failed. */
  ghost predicate StoryAt(parse: string -> seq<string>, s: Sys, calls: seq<Call>, calm: bool) {
    && (s.live.None? && s.log.sealed ==> Smooth(calls))
    && (s.live.Some? ==>
          !s.log.sealed &&
          var mem := s.live.value.mem;
          match s.live.value.pc
          case Begin => calls == []
          case SavePlan | AtStep(_) | SaveStep(_) => Smooth(calls)
          case SaveFinal | MarkSucceeded => Smooth(calls) && mem.phase == "completed"
          case SavePause | MarkWaiting => Asking(calls, mem)
          case SaveError | MarkFailed =>
            Failing(calls, mem) && (calm ==> Hopeless(parse, Row0(s).instructions, calls, mem)))
  }

  lemma LocalStory(parse: string -> seq<string>, s: Sys, calls: seq<Call>, calm: bool)
    requires StoryAt(parse, s, calls, calm)
    ensures StoryAt(parse, After(parse, s, Local), calls, calm)
  {
    hide Str, Blank, WriteStep;
  }

  lemma PlanStory(parse: string -> seq<string>, s: Sys, o: Outcome, calls: seq<Call>, calm: bool)
    requires StoryAt(parse, s, calls, calm)
    ensures StoryAt(parse, After(parse, s, Plan(o)), calls + CallAt(s, Plan(o)), calm)
  {
    hide Str, Blank, WriteStep;
    assert calls + [] == calls;
    if CallAt(s, Plan(o)) != [] {
      assert calls + CallAt(s, Plan(o)) == CallAt(s, Plan(o));
    }
  }

  lemma TurnStory(parse: string -> seq<string>, s: Sys, o: Outcome, calls: seq<Call>, calm: bool)
    requires StoryAt(parse, s, calls, calm)
    ensures StoryAt(parse, After(parse, s, Turn(o)), calls + CallAt(s, Turn(o)), calm)
  {
    hide Str, Blank, WriteStep;
    assert calls + [] == calls;
    if CallAt(s, Turn(o)) != [] {
      assert (calls + CallAt(s, Turn(o)))[..|calls|] == calls;
    }
  }

  lemma WriteStory(
    parse: string -> seq<string>, s: Sys, ok: bool, message: string, calls: seq<Call>, calm: bool)
    requires StoryAt(parse, s, calls, calm) && (calm ==> ok)
    ensures StoryAt(parse, After(parse, s, Write(ok, message)), calls, calm)
  {
    RowIdentity(parse, s, Write(ok, message));
    hide Str, Blank;
    if Smooth(calls) && calls != [] {
      assert Smooth(calls[..|calls| - 1]) && !calls[|calls| - 1].outcome.Failure?;
    }
  }

  lemma EnvStory(parse: string -> seq<string>, s: Sys, ev: Event, calls: seq<Call>, calm: bool)
    requires StoryAt(parse, s, calls, calm)
    ensures StoryAt(parse, After(parse, s, Env(ev)), calls, calm)
  {
    RowIdentity(parse, s, Env(ev));
    hide Str, Blank, RunnerStep;
  }

  lemma StoryStep(parse: string -> seq<string>, s: Sys, m: Move, calls: seq<Call>, calm: bool)
    requires StoryAt(parse, s, calls, calm) && (Own(m) || m.Env?) && (calm && m.Write? ==> m.ok)
    ensures StoryAt(parse, After(parse, s, m), calls + CallAt(s, m), calm)
  {
    assert calls + [] == calls;
    hide StoryAt, After;
    match m
    case Local => LocalStory(parse, s, calls, calm);
    case Plan(o) => PlanStory(parse, s, o, calls, calm);
    case Turn(o) => TurnStory(parse, s, o, calls, calm);
    case Write(ok, message) => WriteStory(parse, s, ok, message, calls, calm);
    case Env(ev) => EnvStory(parse, s, ev, calls, calm);
  }

  // ---- In which order a run asks ----

  function StepCalls(calls: seq<Call>): seq<Call> {
    if calls != [] && calls[0].planning then calls[1..] else calls
  }

  /** A run that starts from the checkpoint `before` asks for a plan at most once, first, with the job's instructions
      and only if there is none; then it asks for the steps that are missing, one after the other, each with its plan
      item. Only the first can be approved, and is exactly if the checkpoint marks a pause. */
  predicate InOrder(instructions: string, before: Progress, plan: seq<string>, calls: seq<Call>) {
    && (calls != [] && calls[0].planning ==>
          before.plan == [] && calls[0].user == instructions && !calls[0].approved)
    && var steps, first := StepCalls(calls), |before.steps|;
       forall t :: 0 <= t < |steps| ==>
         && !steps[t].planning && first + t < |plan| && steps[t].user == plan[first + t]
         && (steps[t].approved <==> t == 0 && before.pending.Some?)
  }

  /** Where the runner stands after these chats. */
  ghost predicate PlaceAt(live: Option<Live>, before: Progress, calls: seq<Call>) {
    live.Some? ==>
      var mem, n := live.value.mem, |StepCalls(calls)|;
      match live.value.pc
      case Begin => calls == [] && mem == before
      case SavePlan => n == 0 && |mem.steps| == |before.steps| && mem.pending == before.pending
      case AtStep(_) =>
        && |mem.steps| == |before.steps| + n
        && mem.pending == if n == 0 then before.pending else None
      case SaveStep(_) => |mem.steps| == |before.steps| + n && mem.pending.None? && n > 0
      case _ => true
  }

  ghost predicate OrderAt(s: Sys, before: Progress, calls: seq<Call>) {
    InOrder(Row0(s).instructions, before, Stored(s).plan, calls) && PlaceAt(s.live, before, calls)
  }

  lemma StillInOrder(s: Sys, s': Sys, before: Progress, calls: seq<Call>)
    requires InOrder(Row0(s).instructions, before, Stored(s).plan, calls)
    requires Extends(Stored(s), Stored(s')) && Row0(s').instructions == Row0(s).instructions
    ensures InOrder(Row0(s').instructions, before, Stored(s').plan, calls)
  {
  }

  lemma NoCallPlace(parse: string -> seq<string>, s: Sys, m: Move, before: Progress, calls: seq<Call>)
    requires PlaceAt(s.live, before, calls) && (m.Local? || m.Write? || m.Env?)
    ensures PlaceAt(After(parse, s, m).live, before, calls)
  {
    assert StepCalls([]) == [];
    hide Str, Keys, Blank, StepCalls, Enabled, Effect;
  }

  lemma NoCallOrder(parse: string -> seq<string>, s: Sys, m: Move, before: Progress, calls: seq<Call>)
    requires Checkpointing(s) && OrderAt(s, before, calls) && (m.Local? || m.Write? || m.Env?)
    ensures OrderAt(After(parse, s, m), before, calls)
  {
    hide InOrder, Checkpointing, PlaceAt, After;
    StepKeeps(parse, s, m);
    RowIdentity(parse, s, m);
    StillInOrder(s, After(parse, s, m), before, calls);
    NoCallPlace(parse, s, m, before, calls);
  }

  lemma PlanOrder(parse: string -> seq<string>, s: Sys, o: Outcome, before: Progress, calls: seq<Call>)
    requires OrderAt(s, before, calls)
    ensures OrderAt(After(parse, s, Plan(o)), before, calls + CallAt(s, Plan(o)))
  {
    assert calls + [] == calls;
    if CallAt(s, Plan(o)) != [] {
      assert calls + CallAt(s, Plan(o)) == CallAt(s, Plan(o));
    }
    hide Str, Keys, Blank, WriteStep;
  }

  lemma InOrderMore(instructions: string, before: Progress, plan: seq<string>, calls: seq<Call>, c: Call)
    requires InOrder(instructions, before, plan, calls) && !c.planning
    requires var k := |before.steps| + |StepCalls(calls)|;
      k < |plan| && c.user == plan[k] && (c.approved <==> StepCalls(calls) == [] && before.pending.Some?)
    ensures InOrder(instructions, before, plan, calls + [c])
    ensures StepCalls(calls + [c]) == StepCalls(calls) + [c]
  {
    assert StepCalls(calls + [c]) == StepCalls(calls) + [c];
  }

  /** A step is called in its turn. */
  lemma TurnIsNext(s: Sys, o: Outcome)
    requires Checkpointing(s) && CallAt(s, Turn(o)) != []
    ensures var p, c := Stored(s), CallAt(s, Turn(o))[0];
      && s.live == Some(Live(AtStep(|p.steps|), p)) && |p.steps| < |p.plan|
      && CallAt(s, Turn(o)) == [c] && !c.planning && c.user == p.plan[|p.steps|]
      && (c.approved <==> p.pending.Some?)
  {
    Recorded(s.live.value.mem, s.live.value.pc.index);
    hide Str, Keys;
  }

  /** The place after a step's call. */
  lemma PlaceAfterTurn(live: Live, live': Live, before: Progress, calls: seq<Call>, c: Call)
    requires PlaceAt(Some(live), before, calls) && live.pc.AtStep?
    requires StepCalls(calls + [c]) == StepCalls(calls) + [c]
    requires live'.pc.SaveStep? || live'.pc.SavePause? || live'.pc.SaveError?
    requires live'.pc.SaveStep? ==> |live'.mem.steps| == |live.mem.steps| + 1 && live'.mem.pending.None?
    ensures PlaceAt(Some(live'), before, calls + [c])
  {
    hide StepCalls;
  }

  /** What a step's call is and where it leads. */
  lemma TurnLeads(parse: string -> seq<string>, s: Sys, o: Outcome) returns (c: Call, live': Live)
    requires Checkpointing(s) && CallAt(s, Turn(o)) != []
    ensures CallAt(s, Turn(o)) == [c] && s.live == Some(Live(AtStep(|Stored(s).steps|), Stored(s)))
    ensures !c.planning && |Stored(s).steps| < |Stored(s).plan| && c.user == Stored(s).plan[|Stored(s).steps|]
    ensures c.approved <==> Stored(s).pending.Some?
    ensures var s' := After(parse, s, Turn(o)); Row0(s') == Row0(s) && s'.live == Some(live')
    ensures live'.pc.SaveStep? || live'.pc.SavePause? || live'.pc.SaveError?
    ensures live'.pc.SaveStep? ==> |live'.mem.steps| == |Stored(s).steps| + 1 && live'.mem.pending.None?
  {
    hide Checkpointing, After, CallAt;
    TurnIsNext(s, o);
    StepKeeps(parse, s, Turn(o));
    SizeAfterTurn(parse, s, o);
    c, live' := CallAt(s, Turn(o))[0], After(parse, s, Turn(o)).live.value;
  }

  lemma TurnOrder(parse: string -> seq<string>, s: Sys, o: Outcome, before: Progress, calls: seq<Call>)
    requires Checkpointing(s) && OrderAt(s, before, calls)
    ensures OrderAt(After(parse, s, Turn(o)), before, calls + CallAt(s, Turn(o)))
  {
    hide InOrder, Checkpointing, StepCalls, PlaceAt, After, CallAt;
    if CallAt(s, Turn(o)) == [] {
      NotCalled(parse, s, o);
      assert calls + [] == calls;
    } else {
      var c, live' := TurnLeads(parse, s, o);
      CalledNext(s, before, calls, c);
      PlaceAfterTurn(s.live.value, live', before, calls, c);
    }
  }

  lemma CalledNext(s: Sys, before: Progress, calls: seq<Call>, c: Call)
    requires OrderAt(s, before, calls) && s.live == Some(Live(AtStep(|Stored(s).steps|), Stored(s)))
    requires !c.planning && |Stored(s).steps| < |Stored(s).plan| && c.user == Stored(s).plan[|Stored(s).steps|]
    requires c.approved <==> Stored(s).pending.Some?
    ensures InOrder(Row0(s).instructions, before, Stored(s).plan, calls + [c])
    ensures StepCalls(calls + [c]) == StepCalls(calls) + [c]
  {
    assert |Stored(s).steps| == |before.steps| + |StepCalls(calls)|;
    hide InOrder;
    InOrderMore(Row0(s).instructions, before, Stored(s).plan, calls, c);
  }

  lemma NotCalled(parse: string -> seq<string>, s: Sys, o: Outcome)
    requires CallAt(s, Turn(o)) == []
    ensures After(parse, s, Turn(o)) == s
  {
    hide Str;
  }

  lemma SizeAfterTurn(parse: string -> seq<string>, s: Sys, o: Outcome)
    requires Checkpointing(After(parse, s, Turn(o))) && CallAt(s, Turn(o)) != []
    requires s.live.value.pc.index == |s.live.value.mem.steps|
    ensures var s' := After(parse, s, Turn(o));
      && Row0(s') == Row0(s) && s'.live.Some?
      && (s'.live.value.pc.SaveStep? ==>
            |s'.live.value.mem.steps| == |s.live.value.mem.steps| + 1 && s'.live.value.mem.pending.None?)
      && (s'.live.value.pc.SaveStep? || s'.live.value.pc.SavePause? || s'.live.value.pc.SaveError?)
  {
    hide Str, Keys, Good, Extends;
  }

  // ---- Over a whole run ----

  /** No write of the run fails. */
  ghost predicate Calm(moves: seq<Move>) { forall k :: 0 <= k < |moves| && moves[k].Write? ==> moves[k].ok }

  lemma OneMoreMove(moves: seq<Move>, m: Move, calm: bool)
    requires RunOf(moves) && (Own(m) || m.Env?) && (calm ==> Calm(moves) && (m.Write? ==> m.ok))
    ensures RunOf(moves + [m]) && (calm ==> Calm(moves + [m]))
  {
  }

  lemma CallsOneMore(parse: string -> seq<string>, s: Sys, moves: seq<Move>, m: Move)
    ensures CallsOf(parse, s, moves + [m]) == CallsOf(parse, s, moves) + CallAt(Run(parse, s, moves), m)
  {
    assert (moves + [m])[..|moves|] == moves;
  }

  lemma {:induction false} StoryAlways(parse: string -> seq<string>, s: Sys, moves: seq<Move>, calm: bool)
    requires Checkpointing(s) && s.live == Some(Live(Begin, Stored(s)))
    requires RunOf(moves) && (calm ==> Calm(moves))
    ensures Checkpointing(Run(parse, s, moves)) && Row0(Run(parse, s, moves)).instructions == Row0(s).instructions
    ensures StoryAt(parse, Run(parse, s, moves), CallsOf(parse, s, moves), calm)
    ensures OrderAt(Run(parse, s, moves), Stored(s), CallsOf(parse, s, moves))
  {
    if moves != [] {
      var front, m := moves[..|moves| - 1], moves[|moves| - 1];
      hide Checkpointing, StoryAt, OrderAt, After, CallAt;
      StoryAlways(parse, s, front, calm);
      var s', calls := Run(parse, s, front), CallsOf(parse, s, front);
      StepKeeps(parse, s', m);
      RowIdentity(parse, s', m);
      StoryStep(parse, s', m, calls, calm);
      OrderStep(parse, s', m, Stored(s), calls);
    }
  }

  lemma OrderStep(parse: string -> seq<string>, s: Sys, m: Move, before: Progress, calls: seq<Call>)
    requires Checkpointing(s) && OrderAt(s, before, calls) && (Own(m) || m.Env?)
    ensures OrderAt(After(parse, s, m), before, calls + CallAt(s, m))
  {
    assert calls + [] == calls;
    hide Checkpointing, OrderAt, After;
    match m
    case Plan(o) => PlanOrder(parse, s, o, before, calls);
    case Turn(o) => TurnOrder(parse, s, o, before, calls);
    case _ => NoCallOrder(parse, s, m, before, calls);
  }

  // ---- The work that is counted ----

  function Planning(calls: seq<Call>): nat {
    if calls == [] then 0
    else Planning(calls[..|calls| - 1]) + if calls[|calls| - 1].planning then 1 else 0
  }

  /** The counters of the work bound count exactly the chats of the schedule. */
  lemma {:induction false} CallsAreCounted(parse: string -> seq<string>, r: Row, moves: seq<Move>)
    ensures var s, calls := Run(parse, Boot(r), moves), CallsOf(parse, Boot(r), moves);
      s.log.planCalls == Planning(calls) && s.log.planCalls + s.log.turns == |calls|
  {
    if moves != [] {
      var front, m := moves[..|moves| - 1], moves[|moves| - 1];
      CallsAreCounted(parse, r, front);
      var s, calls := Run(parse, Boot(r), front), CallsOf(parse, Boot(r), front);
      hide After, CallAt;
      OneCallCounts(parse, s, m);
      assert calls + [] == calls;
      if CallAt(s, m) != [] {
        assert (calls + CallAt(s, m))[..|calls|] == calls;
      }
    }
  }

  lemma OneCallCounts(parse: string -> seq<string>, s: Sys, m: Move)
    ensures var now, c := After(parse, s, m).log, CallAt(s, m);
      && |c| <= 1
      && now.planCalls == s.log.planCalls + (if c != [] && c[0].planning then 1 else 0)
      && now.turns == s.log.turns + (if c != [] && !c[0].planning then 1 else 0)
  {
    hide Str, Blank;
  }
}
