/** A pause is two writes, the checkpoint and the status. When exactly a turn is approved although
    nobody requeued the job after the pause. */
module SplitPauses {
  import opened Base
  import opened Decimal
  import opened Text
  import opened JobRows
  import opened JobStore
  import opened JobBudgets
  import opened CheckpointMachine
  import opened Checkpoints
  import opened Schedules
  import opened ApprovalGate

  /** A worker can get hold of the job again with no UpdateJob(queued): it is queued, or its failure would leave
      it queued, or left failed it can be retried. */
  predicate Regains(r: Row) {
    || r.status == Queued
    || r.status == Failed
    || (r.status == Running && NextStatusAfterFailure(r) != Dead)
  }

  ghost predicate Requeueless(moves: seq<Move>) {
    forall k :: 0 <= k < |moves| ==> moves[k] != Env(Moved(Queued))
  }

  /** The runner is about to make a turn, and sends it as approved. */
  ghost predicate ApprovedTurnAt(parse: string -> seq<string>, s: Sys) {
    TurnApproved(s) && forall outcome :: Step(parse, s, Turn(outcome)).Some?
  }

  ghost predicate ApprovedWithoutRequeue(parse: string -> seq<string>, s: Sys) {
    exists moves :: Requeueless(moves) && ApprovedTurnAt(parse, Run(parse, s, moves))
  }

  /** A runner is at work that may still take up the marker it started with. */
  predicate TakingUp(s: Sys) { s.live.Some? && (s.live.value.pc.Begin? || s.live.value.pc.AtStep?) }

  // ---- A status that does not regain never does ----

  lemma StuckRow(t: Tracked, ev: Event)
    requires !Regains(t.row) && ev != Moved(Queued)
    ensures !Regains(Track(t, ev).row)
  {
  }

  /** A runner that is past any turn, or carries no marker into the next one. */
  predicate Spent(run: Live) {
    && !run.pc.Begin?
    && (run.pc.AtStep? || run.pc.SavePlan? || run.pc.SaveStep? ==> run.mem.pending.None?)
  }

  predicate Stuck(s: Sys) { !Regains(Row0(s)) && (s.live.Some? ==> Spent(s.live.value)) }

  lemma StuckStep(parse: string -> seq<string>, s: Sys, m: Move)
    requires Stuck(s) && m != Env(Moved(Queued))
    ensures Stuck(After(parse, s, m))
  {
    hide Regains, Str, Blank;
    var ev := JobMoves(parse, s, m);
    if ev.Some? {
      StuckRow(s.job, ev.value);
    }
    NotQueued(Row0(s));
    hide Track;
  }

  lemma NotQueued(r: Row)
    requires !Regains(r)
    ensures r.status != Queued
  {
  }

  lemma {:induction false} StuckForever(parse: string -> seq<string>, s: Sys, moves: seq<Move>)
    requires Stuck(s) && Requeueless(moves)
    ensures Stuck(Run(parse, s, moves))
  {
    if moves != [] {
      var before := moves[..|moves| - 1];
      StuckForever(parse, s, before);
      hide Stuck, After;
      StuckStep(parse, Run(parse, s, before), moves[|moves| - 1]);
    }
  }

  // ---- A status that regains leads to an approved turn ----

  lemma OneMoveEarlier(parse: string -> seq<string>, s: Sys, m: Move)
    requires m != Env(Moved(Queued)) && ApprovedWithoutRequeue(parse, After(parse, s, m))
    ensures ApprovedWithoutRequeue(parse, s)
  {
    hide ApprovedTurnAt;
    var rest :| Requeueless(rest) && ApprovedTurnAt(parse, Run(parse, After(parse, s, m), rest));
    RunOne(parse, s, [], m);
    assert [] + [m] == [m];
    RunAppend(parse, s, [m], rest);
    assert Requeueless([m] + rest);
  }

  /** A marked checkpoint of a job with instructions, and nobody at work on it. */
  ghost predicate Marked(s: Sys) {
    && s.live.None? && Good(Stored(s)) && Stored(s).pending.Some?
    && !Blank(Row0(s).instructions)
  }

  lemma FromQueued(parse: string -> seq<string>, s: Sys)
    requires Marked(s) && Row0(s).status == Queued
    ensures ApprovedWithoutRequeue(parse, s)
  {
    hide Good, Str, Blank, Regains, ApprovedTurnAt, ApprovedWithoutRequeue;
    TheMarkedStep(Stored(s));
    hide Step;
    FromBegin(parse, After(parse, s, Claim("", 0))) by { Claimed0(parse, s); }
    OneMoveEarlier(parse, s, Claim("", 0));
  }

  lemma Claimed0(parse: string -> seq<string>, s: Sys)
    requires s.live.None? && Row0(s).status == Queued
    ensures var s' := After(parse, s, Claim("", 0));
      s'.live == Some(Live(Begin, Stored(s))) && Stored(s') == Stored(s)
        && Row0(s').instructions == Row0(s).instructions
  {
  }

  lemma FromBegin(parse: string -> seq<string>, s: Sys)
    requires s.live == Some(Live(Begin, Stored(s))) && Good(Stored(s)) && Stored(s).pending.Some?
    requires !Blank(Row0(s).instructions)
    ensures ApprovedWithoutRequeue(parse, s)
  {
    hide Good, Str, Blank, Regains, ApprovedTurnAt, ApprovedWithoutRequeue;
    TheMarkedStep(Stored(s));
    assert After(parse, s, Local) == At(s, AtStep(0), Stored(s));
    FromStep(parse, After(parse, s, Local), 0);
    OneMoveEarlier(parse, s, Local);
  }

  lemma FromStep(parse: string -> seq<string>, s: Sys, i: nat)
    requires s.live == Some(Live(AtStep(i), Stored(s))) && Good(Stored(s)) && Stored(s).pending.Some?
    requires i <= |Stored(s).steps|
    ensures ApprovedWithoutRequeue(parse, s)
  {
    hide Good, Str, Regains, Run, ApprovedTurnAt;
    var p, k := Stored(s), |Stored(s).steps|;
    TheMarkedStep(p);
    Skipped(parse, s, p, i, k - i);
    assert Requeueless(Skips(k - i));
    AtTheMarker(parse, At(s, AtStep(k), p), p, k);
  }

  /** The marker names the first step without a record. */
  lemma TheMarkedStep(p: Progress)
    requires Good(p) && p.pending.Some?
    ensures |p.steps| < |p.plan| && p.plan != [] && Approved(p, |p.steps|) && Str(|p.steps|) !in p.steps
    ensures forall i :: 0 <= i < |p.steps| ==> Str(i) in p.steps
  {
    Recorded(p, |p.steps|);
    hide Str, Keys;
  }

  lemma AtTheMarker(parse: string -> seq<string>, s: Sys, p: Progress, k: nat)
    requires s.live == Some(Live(AtStep(k), p)) && k < |p.plan| && Str(k) !in p.steps && Approved(p, k)
    ensures ApprovedTurnAt(parse, s)
  {
    hide Str;
  }

  lemma FromFailed(parse: string -> seq<string>, s: Sys)
    requires Marked(s) && Row0(s).status == Failed
    ensures ApprovedWithoutRequeue(parse, s)
  {
    hide Good, ApprovedWithoutRequeue;
    FromQueued(parse, After(parse, s, Env(Retried)));
    OneMoveEarlier(parse, s, Env(Retried));
  }

  lemma FromRegaining(parse: string -> seq<string>, s: Sys)
    requires Marked(s) && Regains(Row0(s))
    ensures ApprovedWithoutRequeue(parse, s)
  {
    hide Good, ApprovedWithoutRequeue;
    match Row0(s).status
    case Queued => FromQueued(parse, s);
    case Failed => FromFailed(parse, s);
    case Running =>
      var s' := After(parse, s, Env(FailReported));
      if Row0(s').status == Queued { FromQueued(parse, s'); } else { FromFailed(parse, s'); }
      OneMoveEarlier(parse, s, Env(FailReported));
  }

  /** Exact condition, for every reachable state whose checkpoint marks a pause: a turn can be approved with no
      UpdateJob(queued) from then on iff a runner is just taking the marker up, or the row can get back into the queue
      by failing and retrying alone. After a pause that made both its writes neither is so; after one that lost its
      second write the row can, unless both budgets are spent. */
  lemma ApprovedWithoutRequeueIff(parse: string -> seq<string>, r: Row, moves: seq<Move>)
    requires IsFresh(r)
    requires Stored(Run(parse, Boot(r), moves)).pending.Some?
    ensures var s := Run(parse, Boot(r), moves);
      ApprovedWithoutRequeue(parse, s) <==> TakingUp(s) || Regains(Row0(s))
  {
    var s := Run(parse, Boot(r), moves);
    CheckpointAlways(parse, r, moves);
    InstructedAlways(parse, r, moves);
    MarkedIff(parse, s);
  }

  lemma MarkedIff(parse: string -> seq<string>, s: Sys)
    requires Checkpointing(s) && Instructed(s) && Stored(s).pending.Some?
    ensures ApprovedWithoutRequeue(parse, s) <==> TakingUp(s) || Regains(Row0(s))
  {
    MarkedFacts(s);
    hide Good, InStep, Checkpointing, Instructed, Run, Blank, Regains, Spent, ApprovedWithoutRequeue;
    if TakingUp(s) {
      if s.live.value.pc.Begin? { FromBegin(parse, s); } else { FromStep(parse, s, s.live.value.pc.index); }
    } else if Regains(Row0(s)) {
      if s.live.Some? {
        FromRegaining(parse, After(parse, s, Crash));
        OneMoveEarlier(parse, s, Crash);
      } else {
        FromRegaining(parse, s);
      }
    } else {
      NeverApproved(parse, s);
    }
  }

  lemma MarkedFacts(s: Sys)
    requires Checkpointing(s) && Instructed(s) && Stored(s).pending.Some?
    ensures Good(Stored(s)) && !Blank(Row0(s).instructions)
    ensures TakingUp(s) ==> s.live.value.mem == Stored(s)
    ensures TakingUp(s) && s.live.value.pc.AtStep? ==> s.live.value.pc.index <= |Stored(s).steps|
    ensures s.live.Some? && !TakingUp(s) ==> Spent(s.live.value)
  {
    hide Str, Keys, Blank;
  }

  lemma NeverApproved(parse: string -> seq<string>, s: Sys)
    requires Stuck(s)
    ensures !ApprovedWithoutRequeue(parse, s)
  {
    forall later | Requeueless(later)
      ensures !ApprovedTurnAt(parse, Run(parse, s, later))
    {
      StuckForever(parse, s, later);
      hide Run;
    }
  }

  // ---- Whole jobs ----

  /** A pause at step 0 during which somebody cancels the job and requeues it: the requeue comes before the pause
      is checkpointed, so its status write is refused, and the job is claimed as it stands. */
  function CancelledPause(content: string): seq<Move> {
    Opening(content) + [Turn(Reply("", APPROVAL, "")), Env(Moved(Cancelled)), Env(Moved(Queued)),
                        Write(true, ""), Write(true, ""), Claim("", 0), Local]
  }

  /** Counterexample for every job and every plan, whatever its budgets: the hypothesis on split pauses cannot be
      dropped from the approval gate. */
  lemma SplitPauseIsApproved(parse: string -> seq<string>, r: Row, content: string)
    requires IsFresh(r) && !Blank(r.instructions) && parse(content) != []
    ensures var s := Run(parse, Boot(r), CancelledPause(content));
      ApprovedTurnAt(parse, s) && s.log.split && !s.log.requeued
  {
    var p, rest := Planned(NO_PROGRESS, parse(content)), CancelledPause(content)[3..];
    Opened(parse, Boot(r), content);
    var s := Run(parse, Boot(r), Opening(content));
    assert CancelledPause(content) == Opening(content) + rest;
    RunAppend(parse, Boot(r), Opening(content), rest);
    PausedAndCancelled(parse, s, p);
  }

  lemma PausedAndCancelled(parse: string -> seq<string>, s: Sys, p: Progress)
    requires s.live == Some(Live(AtStep(0), p)) && p.plan != [] && p.steps == map[]
    requires Row0(s).status == Running && !Blank(Row0(s).instructions)
    ensures var s' := Run(parse, s, [Turn(Reply("", APPROVAL, "")), Env(Moved(Cancelled)), Env(Moved(Queued)),
                                     Write(true, ""), Write(true, ""), Claim("", 0), Local]);
      ApprovedTurnAt(parse, s') && s'.log.split && !s'.log.requeued
  {
    hide Str, Blank, Run, After;
    var a := [Turn(Reply("", APPROVAL, "")), Env(Moved(Cancelled)), Env(Moved(Queued)),
              Write(true, ""), Write(true, ""), Claim("", 0), Local];
    assert a[..0] == [] && a[..5] + [Claim("", 0), Local] == a;
    RunSnoc(parse, s, a, 0);
    RunSnoc(parse, s, a, 1);
    RunSnoc(parse, s, a, 2);
    RunSnoc(parse, s, a, 3);
    RunSnoc(parse, s, a, 4);
    RunNothing(parse, s);
    var s5 := Run(parse, s, a[..5]);
    CancelledMidPause(parse, s, p);
    WrittenTooLate(parse, Run(parse, s, a[..3]), Paused(p, 0, p.plan[0], ""));
    RunAppend(parse, s, a[..5], [Claim("", 0), Local]);
    TakenUpApproved(parse, s5);
  }

  lemma RunNothing(parse: string -> seq<string>, s: Sys)
    ensures Run(parse, s, []) == s
  {
  }

  lemma CancelledMidPause(parse: string -> seq<string>, s: Sys, p: Progress)
    requires s.live == Some(Live(AtStep(0), p)) && p.plan != [] && p.steps == map[] && Row0(s).status == Running
    ensures var s' := After(parse,
      After(parse, After(parse, s, Turn(Reply("", APPROVAL, ""))), Env(Moved(Cancelled))), Env(Moved(Queued)));
      && s'.live == Some(Live(SavePause, Paused(p, 0, p.plan[0], "")))
      && Row0(s').status == Queued && Row0(s').instructions == Row0(s).instructions
  {
    hide Str, Blank;
    var s1 := After(parse, s, Turn(Reply("", APPROVAL, "")));
    assert s1 == At(s, SavePause, Paused(p, 0, p.plan[0], "")).(log := s.log.(turns := s.log.turns + 1));
  }

  lemma WrittenTooLate(parse: string -> seq<string>, s: Sys, q: Progress)
    requires s.live == Some(Live(SavePause, q)) && Row0(s).status == Queued
    ensures var s' := After(parse, After(parse, s, Write(true, "")), Write(true, ""));
      && s'.live.None? && Row0(s').status == Queued && Stored(s') == q && s'.log.split && !s'.log.requeued
      && Row0(s').instructions == Row0(s).instructions
  {
    hide Str, Blank;
  }

  lemma TakenUp(parse: string -> seq<string>, s: Sys)
    requires s.live.None? && Row0(s).status == Queued && Stored(s).plan != [] && !Blank(Row0(s).instructions)
    ensures Run(parse, s, [Claim("", 0), Local]).live == Some(Live(AtStep(0), Stored(s)))
  {
    hide Str, Blank;
    RunTwo(parse, s, Claim("", 0), Local);
  }

  lemma TakenUpApproved(parse: string -> seq<string>, s: Sys)
    requires s.live.None? && Row0(s).status == Queued && !Blank(Row0(s).instructions)
    requires Stored(s).plan != [] && Stored(s).steps == map[] && Approved(Stored(s), 0)
    ensures var s' := Run(parse, s, [Claim("", 0), Local]);
      ApprovedTurnAt(parse, s') && s'.log.split == s.log.split && s'.log.requeued == s.log.requeued
  {
    hide Str, Blank;
    RunTwo(parse, s, Claim("", 0), Local);
    TakenUp(parse, s);
  }

  // ---- Jobs nobody ever requeues ----

  predicate EarlyOn(pc: Pc) { pc.Begin? || pc.SavePlan? || pc.AtStep? }

  /** A marker comes from a run, and a runner that starts with one is at least the second. */
  ghost predicate SecondRun(s: Sys) {
    && (s.live.Some? || Stored(s).pending.Some? ==> s.log.runs >= 1)
    && (s.live.Some? && s.live.value.mem.pending.Some? && EarlyOn(s.live.value.pc) ==> s.log.runs >= 2)
  }

  lemma SecondRunStep(parse: string -> seq<string>, s: Sys, m: Move)
    requires MarkersMatch(s) && SecondRun(s)
    ensures SecondRun(After(parse, s, m))
  {
    hide Str, Blank;
    match m
    case Env(ev) => if !ev.Checkpointed? { TrackKeepsProgress(s.job, ev); }
    case Claim(owner, now) => TrackKeepsProgress(s.job, Claimed(owner, now));
    case Crash =>
    case Local =>
    case Plan(_) =>
    case Turn(_) =>
    case Write(ok, _) =>
      if s.live.Some? && Marking(s.live.value.pc) {
        TrackKeepsProgress(s.job, MarkEvent(s.live.value.pc));
      }
  }

  lemma {:induction false} SecondRunAlways(parse: string -> seq<string>, r: Row, moves: seq<Move>)
    requires IsFresh(r)
    ensures SecondRun(Run(parse, Boot(r), moves))
  {
    if moves != [] {
      var before := moves[..|moves| - 1];
      SecondRunAlways(parse, r, before);
      CheckpointAlways(parse, r, before);
      MarkersMatchAlways(Run(parse, Boot(r), before));
      hide SecondRun, MarkersMatch, Checkpointing, After;
      SecondRunStep(parse, Run(parse, Boot(r), before), moves[|moves| - 1]);
    }
  }

  lemma {:induction false} NoRequeues(parse: string -> seq<string>, r: Row, moves: seq<Move>)
    requires Requeueless(moves)
    ensures Run(parse, Boot(r), moves).job.requeues == 0
  {
    if moves != [] {
      var before, m := moves[..|moves| - 1], moves[|moves| - 1];
      NoRequeues(parse, r, before);
      var ev := JobMoves(parse, Run(parse, Boot(r), before), m);
      hide After;
    }
  }

  lemma EarlierBy(parse: string -> seq<string>, s: Sys, moves: seq<Move>)
    requires Requeueless(moves) && ApprovedWithoutRequeue(parse, Run(parse, s, moves))
    ensures ApprovedWithoutRequeue(parse, s)
  {
    hide ApprovedTurnAt, Run;
    var rest :| Requeueless(rest) && ApprovedTurnAt(parse, Run(parse, Run(parse, s, moves), rest));
    RunAppend(parse, s, moves, rest);
    assert Requeueless(moves + rest);
  }

  /** A pause at step 0 whose checkpoint is written, and then the process dies. */
  function LostPause(content: string): seq<Move> {
    Opening(content) + [Turn(Reply("", APPROVAL, "")), Write(true, ""), Crash]
  }

  lemma PauseLost(parse: string -> seq<string>, r: Row, content: string)
    requires IsFresh(r) && !Blank(r.instructions) && parse(content) != []
    ensures var s := Run(parse, Boot(r), LostPause(content));
      && s.live.None? && Stored(s).pending.Some? && Row0(s).status == Running
      && Row0(s).attempts == 1 && Row0(s).maxAttempts == r.maxAttempts
      && Row0(s).retryCount == 0 && Row0(s).maxRetries == r.maxRetries
  {
    hide Str, Blank, Run, After;
    var p, rest := Planned(NO_PROGRESS, parse(content)), [Turn(Reply("", APPROVAL, "")), Write(true, ""), Crash];
    Opened(parse, Boot(r), content);
    var s := Run(parse, Boot(r), Opening(content));
    RunAppend(parse, Boot(r), Opening(content), rest);
    assert rest[..0] == [] && rest[..3] == rest;
    RunNothing(parse, s);
    RunSnoc(parse, s, rest, 0);
    RunSnoc(parse, s, rest, 1);
    RunSnoc(parse, s, rest, 2);
    PausedAndLost(parse, s, p);
  }

  lemma PausedAndLost(parse: string -> seq<string>, s: Sys, p: Progress)
    requires s.live == Some(Live(AtStep(0), p)) && p.plan != [] && p.steps == map[]
    ensures var s' := After(parse, After(parse, After(parse, s, Turn(Reply("", APPROVAL, ""))), Write(true, "")),
      Crash);
      s'.live.None? && s'.job == Track(s.job, Checkpointed(Paused(p, 0, p.plan[0], "")))
  {
    hide Str, Blank;
    var s4 := After(parse, s, Turn(Reply("", APPROVAL, "")));
    assert s4.live == Some(Live(SavePause, Paused(p, 0, p.plan[0], ""))) && s4.job == s.job;
  }

  /** Exact condition for a whole job: with no UpdateJob(queued) ever, an approved turn is possible iff the job has a
      second attempt or a retry. */
  lemma NeverRequeuedIff(parse: string -> seq<string>, r: Row, content: string)
    requires IsFresh(r) && !Blank(r.instructions) && parse(content) != []
    ensures ApprovedWithoutRequeue(parse, Boot(r)) <==> r.maxAttempts >= 2 || r.maxRetries >= 1
  {
    hide Str, Blank, Good, Budget, Run;
    if r.maxAttempts >= 2 || r.maxRetries >= 1 {
      PauseLost(parse, r, content);
      ApprovedWithoutRequeueIff(parse, r, LostPause(content));
      EarlierBy(parse, Boot(r), LostPause(content));
    } else {
      forall moves | Requeueless(moves)
        ensures !ApprovedTurnAt(parse, Run(parse, Boot(r), moves))
      {
        OneRunIsTooFew(parse, r, moves);
      }
    }
  }

  lemma OneRunIsTooFew(parse: string -> seq<string>, r: Row, moves: seq<Move>)
    requires IsFresh(r) && r.maxAttempts == 1 && r.maxRetries == 0 && Requeueless(moves)
    ensures !ApprovedTurnAt(parse, Run(parse, Boot(r), moves))
  {
    var s := Run(parse, Boot(r), moves);
    SecondRunAlways(parse, r, moves);
    NoRequeues(parse, r, moves);
    WorkBound(parse, r, moves);
    hide Run, Str, Keys;
  }
}
