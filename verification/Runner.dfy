/** The runner as it is written: methods that mutate a progress dictionary, save it between
    calls and report a status. Every path through them is a run of the checkpoint machine,
    whatever the orchestrator answers and whichever database writes fail. */
module Runner {
  import opened Base
  import opened Decimal
  import opened Text
  import opened JobRows
  import opened JobStore
  import opened CheckpointMachine
  import opened Checkpoints
  import opened RunStory

  /** The `progress` dictionary of one run, shared by reference between the runner's methods. */
  class ProgressDict {
    var p: Progress

    constructor (p: Progress)
      ensures this.p == p
    {
      this.p := p;
    }
  }

  /** How a runner method ends: it returns, or one of two kinds of exception leaves it. */
  datatype Exit = Returned | ApprovalRequired | Raised(message: string)

  class Orchestrator {
    ghost var calls: seq<Call>

    constructor ()
      ensures calls == []
    {
      calls := [];
    }

    /** One group chat; a planning chat carries the planner's system message. Nothing is assumed about how it ends. */
    method Chat(planning: bool, user: string, approved: bool) returns (o: Outcome)
      modifies this
      ensures calls == old(calls) + [Call(planning, user, approved, o)]
    {
      o := *;
      calls := calls + [Call(planning, user, approved, o)];
    }
  }

  class JobRunner {
    const jobs: JobService
    const orchestrator: Orchestrator
    const parse: string -> seq<string>
    const outages: bool  // whether database writes can fail
    ghost var start: Sys
    ghost var trace: seq<Move>
    ghost var base: seq<Call>

    constructor (jobs: JobService, orchestrator: Orchestrator, parse: string -> seq<string>, outages: bool)
      ensures this.jobs == jobs && this.orchestrator == orchestrator && this.parse == parse && this.outages == outages
    {
      this.jobs, this.orchestrator, this.parse, this.outages := jobs, orchestrator, parse, outages;
    }

    /** Where the machine stands after the moves made so far. */
    ghost function Here(): Sys
      reads this
    {
      Run(parse, start, trace)
    }

    /** A runner about to start on a job whose machine stands at s. */
    ghost method TakeOver(s: Sys)
      modifies this`start, this`trace, this`base
      ensures Here() == s && Truthful() && start == s && trace == [] && base == orchestrator.calls
    {
      start, trace, base := s, [], orchestrator.calls;
    }

    /** The table holds the machine's row, and the runner stands at `pc` with `dict` as its memory. */
    ghost predicate Standing(id: string, pc: Pc, p: Progress)
      reads this, jobs
    {
      && id in jobs.table && jobs.table[id] == Row0(Here())
      && Here().live == Some(Live(pc, p))
      && Checkpointing(Here())
    }

    /** The moves made are those of a run, with failed writes only in an outage, and they are the requests the
        orchestrator was sent since it began, in order and with the same prompts and approval flags. */
    ghost predicate Truthful()
      reads this, orchestrator
    {
      && orchestrator.calls == base + CallsOf(parse, start, trace)
      && RunOf(trace) && (!outages ==> Calm(trace))
    }

    lemma WhatTruthfulSays()
      requires Truthful()
      ensures orchestrator.calls == base + CallsOf(parse, start, trace)
      ensures RunOf(trace) && (!outages ==> Calm(trace))
    {
    }

    ghost method Emit(m: Move)
      requires Checkpointing(Here())
      requires (m.Local? || m.Write? || m.Env?) && (m.Write? && !m.ok ==> outages) && Truthful()
      modifies this`trace
      ensures trace == old(trace) + [m] && Truthful()
      ensures Here() == After(parse, old(Here()), m)
      ensures Checkpointing(Here()) && Row0(Here()).tenant == old(Row0(Here()).tenant)
      ensures Row0(Here()).instructions == old(Row0(Here()).instructions)
    {
      assert CallAt(Here(), m) == [] && CallsOf(parse, start, trace) + [] == CallsOf(parse, start, trace);
      Extend(m);
    }

    ghost method Extend(m: Move)
      requires Checkpointing(Here()) && (Own(m) || m.Env?) && (m.Write? && !m.ok ==> outages)
      requires orchestrator.calls == base + (CallsOf(parse, start, trace) + CallAt(Here(), m))
      requires RunOf(trace) && (!outages ==> Calm(trace))
      modifies this`trace
      ensures trace == old(trace) + [m] && Truthful()
      ensures Here() == After(parse, old(Here()), m)
      ensures Checkpointing(Here()) && Row0(Here()).tenant == old(Row0(Here()).tenant)
      ensures Row0(Here()).instructions == old(Row0(Here()).instructions)
    {
      hide Checkpointing, After, Run, CallAt, CallsOf, Str, RunOf, Calm, Own;
      OneMoreMove(trace, m, !outages);
      assert CallsOf(parse, start, trace + [m]) == CallsOf(parse, start, trace) + CallAt(Here(), m) by {
        CallsOneMore(parse, start, trace, m);
      }
      RunOne(parse, start, trace, m);
      StepKeeps(parse, Here(), m);
      RowIdentity(parse, Here(), m);
      assert (trace + [m])[..|trace|] == trace;
      trace := trace + [m];
    }

    /** Sends the request the runner is at: the planner's with the instructions, a step's with its plan item and
        with the approval flag of the pending marker. */
    method Ask(planning: bool, user: string, approved: bool) returns (o: Outcome)
      requires Checkpointing(Here()) && Truthful() && Here().live.Some?
      requires planning ==>
        && Here().live.value.pc.Begin? && Here().live.value.mem.plan == [] && !Blank(user)
        && user == Row0(Here()).instructions && !approved
      requires !planning ==>
        var run := Here().live.value;
        && run.pc.AtStep? && run.pc.index < |run.mem.plan|
        && Str(run.pc.index) !in run.mem.steps
        && user == run.mem.plan[run.pc.index] && approved == Approved(run.mem, run.pc.index)
      modifies this`trace, orchestrator
      ensures trace == old(trace) + [if planning then Plan(o) else Turn(o)] && Truthful()
      ensures Here() == After(parse, old(Here()), if planning then Plan(o) else Turn(o))
      ensures Checkpointing(Here()) && Row0(Here()).tenant == old(Row0(Here()).tenant)
      ensures Row0(Here()).instructions == old(Row0(Here()).instructions)
    {
      hide Checkpointing, After, Run, CallsOf, Str;
      o := orchestrator.Chat(planning, user, approved);
      assert orchestrator.calls == base + (CallsOf(parse, start, trace) + [Call(planning, user, approved, o)]);
      Extend(if planning then Plan(o) else Turn(o));
    }

    /** While the runner waits, others may send any number of requests about the job, reap it or renew its lease. */
    method Meanwhile(id: string, ghost pc: Pc, ghost p: Progress)
      requires Standing(id, pc, p)
      requires Truthful()
      modifies this`trace, jobs
      ensures Standing(id, pc, p) && old(trace) <= trace && Truthful()
      ensures jobs.table == old(jobs.table)[id := Row0(Here())] && Stored(Here()) == old(Stored(Here()))
      ensures Row0(Here()).tenant == old(Row0(Here()).tenant)
        && Row0(Here()).instructions == old(Row0(Here()).instructions)
    {
      hide Truthful, CallsOf, Str, Keys, Strip, Checkpointing, Run;
      var requests: int := *;
      for k := 0 to Max(0, requests)
        invariant Standing(id, pc, p) && old(trace) <= trace && Truthful()
        invariant jobs.table == old(jobs.table)[id := Row0(Here())] && Stored(Here()) == old(Stored(Here()))
        invariant Row0(Here()).tenant == old(Row0(Here()).tenant)
        invariant Row0(Here()).instructions == old(Row0(Here()).instructions)
      {
        var ev: Event := *;
        if !ev.Claimed? && !ev.Checkpointed? {
          OneRow(jobs.table, None, id, ev);
          EnvIs(parse, Here(), ev);
          jobs.table := OnTable(jobs.table, One(None, id, ev));
          Emit(Env(ev));
        }
      }
    }

    /** save_progress: the checkpoint is in the table, or the write failed and nothing changed. */
    method SaveCheckpoint(id: string, dict: ProgressDict, ghost pc: Pc) returns (exit: Exit)
      requires Saving(pc) && Standing(id, pc, dict.p)
      requires Truthful()
      modifies this`trace, jobs
      ensures exit.Returned? || exit.Raised?
      ensures old(trace) <= trace && Checkpointing(Here()) && Truthful()
      ensures jobs.table == old(jobs.table)[id := Row0(Here())]
      ensures Row0(Here()).tenant == old(Row0(Here()).tenant)
        && Row0(Here()).instructions == old(Row0(Here()).instructions)
      ensures exit.Returned? ==> Here().live == Some(Live(NextPc(pc), dict.p)) && Stored(Here()) == dict.p
      ensures !outages ==> exit.Returned?
      ensures exit.Raised? && !pc.SaveError? ==>
        Here().live == Some(Live(SaveError, dict.p.(error := Some(exit.message))))
      ensures exit.Raised? && pc.SaveError? ==> Here().live == Some(Live(MarkFailed, dict.p))
    {
      hide Truthful, CallsOf, Str, Keys, Strip, Checkpointing, Run, Step;
      Meanwhile(id, pc, dict.p);
      var lost: bool := *;
      if outages && lost {
        var message: string := *;
        WriteIs(parse, Here(), false, message);
        Emit(Write(false, message));
        exit := Raised(message);
      } else {
        OneRow(jobs.table, None, id, Checkpointed(dict.p));
        WriteIs(parse, Here(), true, "");
        Emit(Write(true, ""));
        var r := jobs.SaveProgress(id, dict.p);
        exit := Returned;
      }
    }

    /** The status update that ends a run; it is refused if the row is no longer where it must be. */
    method Report(
        id: string, tenant: string, target: Status, now: int, ghost pc: Pc, ghost p: Progress) returns (exit: Exit)
      requires Marking(pc) && MarkEvent(pc) == EventOf(target, now)
      requires Standing(id, pc, p) && jobs.table[id].tenant == tenant
      requires Truthful()
      modifies this`trace, jobs
      ensures exit.Returned? || exit.Raised?
      ensures old(trace) <= trace && Checkpointing(Here()) && Truthful()
      ensures jobs.table == old(jobs.table)[id := Row0(Here())]
      ensures exit.Returned? ==> Here().live.None? && old(jobs.table)[id].status == Running
      ensures exit.Raised? && !outages ==> old(jobs.table)[id].status != Running
      ensures Row0(Here()) == if exit.Returned? then Effect(old(Row0(Here())), EventOf(target, now))
        else old(Row0(Here()))
      ensures exit.Returned? && pc.MarkSucceeded? ==> Here().log.sealed
      ensures exit.Raised? && pc.MarkSucceeded? ==>
        Here().live == Some(Live(SaveError, p.(error := Some(exit.message))))
      ensures exit.Raised? && !pc.MarkSucceeded? ==> Here().live.None?
      ensures Row0(Here()).tenant == old(Row0(Here()).tenant)
    {
      hide Truthful, CallsOf, Str, Keys, Strip, Checkpointing, Run, Step;
      var lost: bool := *;
      if outages && lost {
        var message: string := *;
        WriteIs(parse, Here(), false, message);
        Emit(Write(false, message));
        exit := Raised(message);
      } else {
        OneRow(jobs.table, Some(tenant), id, EventOf(target, now));
        var r := jobs.Update(tenant, id, target, now);
        var message := if r.Ok? then "" else "job is not running";
        WriteIs(parse, Here(), true, message);
        Emit(Write(true, message));
        exit := if r.Ok? then Returned else Raised(message);
      }
    }

    /** A job whose instructions are missing or blank cannot be run. */
    method PromptOf(id: string, row: Row, dict: ProgressDict) returns (exit: Exit)
      requires Standing(id, Begin, dict.p) && row.instructions == jobs.table[id].instructions
      requires Truthful()
      modifies this`trace
      ensures exit == if Blank(row.instructions) then Raised("no instructions") else Returned
      ensures old(trace) <= trace && Checkpointing(Here()) && Truthful() && Row0(Here()) == old(Row0(Here()))
      ensures exit.Returned? ==> Here() == old(Here())
      ensures exit.Raised? ==> Here().live == Some(Live(SaveError, dict.p.(error := Some(exit.message))))
    {
      hide Truthful, CallsOf, Str, Keys, Blank, Checkpointing, Run, WriteStep;
      exit := Returned;
      if Blank(row.instructions) {
        Emit(Local);
        exit := Raised("no instructions");
      }
    }

    /** Reuses a checkpointed plan, or asks for one and checkpoints it. */
    method EnsurePlan(id: string, row: Row, dict: ProgressDict) returns (exit: Exit)
      requires Standing(id, Begin, dict.p) && row.instructions == jobs.table[id].instructions
        && !Blank(row.instructions)
      requires Truthful()
      modifies this`trace, orchestrator, jobs, dict
      ensures exit.Returned? || exit.Raised?
      ensures old(trace) <= trace && Checkpointing(Here()) && Truthful()
      ensures jobs.table == old(jobs.table)[id := Row0(Here())]
      ensures Row0(Here()).tenant == old(Row0(Here()).tenant)
      ensures exit.Returned? ==> Here().live == Some(Live(AtStep(0), dict.p))
      ensures exit.Raised? ==> Here().live == Some(Live(SaveError, dict.p.(error := Some(exit.message))))
      ensures old(dict.p).plan != [] ==> exit.Returned? && dict.p == old(dict.p) && jobs.table == old(jobs.table)
    {
      hide Truthful, CallsOf, Str, Keys, Strip, Checkpointing, Run, WriteStep;
      if dict.p.plan != [] {
        Emit(Local);
        return Returned;
      }
      Meanwhile(id, Begin, dict.p);
      var reply := Ask(true, row.instructions, false);
      if reply.Failure? {
        return Raised(reply.message);
      }
      var plan := parse(reply.content);
      if plan == [] {
        return Raised("planner returned no sub-prompts");
      }
      dict.p := dict.p.(plan := plan, phase := "executing");
      exit := SaveCheckpoint(id, dict, SavePlan);
    }

    /** One round of the step loop. */
    method ExecuteStep(id: string, dict: ProgressDict, index: nat) returns (exit: Exit)
      requires Standing(id, AtStep(index), dict.p) && index < |dict.p.plan|
      requires Truthful()
      modifies this`trace, orchestrator, jobs, dict
      ensures old(trace) <= trace && Checkpointing(Here()) && Truthful()
      ensures jobs.table == old(jobs.table)[id := Row0(Here())]
      ensures Row0(Here()).tenant == old(Row0(Here()).tenant)
      ensures dict.p.plan == old(dict.p.plan)
      ensures exit.Returned? ==> Here().live == Some(Live(AtStep(index + 1), dict.p))
      ensures exit.ApprovalRequired? ==> Here().live == Some(Live(MarkWaiting, dict.p))
      ensures exit.Raised? ==> Here().live == Some(Live(SaveError, dict.p.(error := Some(exit.message))))
    {
      hide Truthful, CallsOf, Str, Keys, Strip, Checkpointing, Run, After, Good, Extends, InStep;
      var key := Str(index);
      if key in dict.p.steps {
        SkipIs(parse, Here());
        Emit(Local);
        return Returned;
      }
      var approved := dict.p.pending.Some? && dict.p.pending.value.step == index;
      assert approved == Approved(dict.p, index);
      Meanwhile(id, AtStep(index), dict.p);
      ghost var here := Here();
      var reply := Ask(false, dict.p.plan[index], approved);
      TurnIs(parse, here, reply);
      if reply.Failure? {
        return Raised(reply.message);
      }
      if reply.finishReason == APPROVAL {
        dict.p := dict.p.(pending := Some(Pending(index, dict.p.plan[index], reply.content)));
        var saved := SaveCheckpoint(id, dict, SavePause);
        return if saved.Returned? then ApprovalRequired else saved;
      }
      dict.p := dict.p.(pending := None);
      var record := StepRecord(dict.p.plan[index], reply.content, reply.finishReason, reply.agent);
      dict.p := dict.p.(steps := dict.p.steps[key := record]);
      exit := SaveCheckpoint(id, dict, SaveStep(index));
    }

    /** Runs the steps that have no record yet, in order, saving after each. */
    method ExecuteSteps(id: string, dict: ProgressDict) returns (exit: Exit)
      requires Standing(id, AtStep(0), dict.p)
      requires Truthful()
      modifies this`trace, orchestrator, jobs, dict
      ensures old(trace) <= trace && Checkpointing(Here()) && Truthful()
      ensures jobs.table == old(jobs.table)[id := Row0(Here())]
      ensures Row0(Here()).tenant == old(Row0(Here()).tenant)
      ensures exit.Returned? ==> Here().live == Some(Live(AtStep(|dict.p.plan|), dict.p))
      ensures exit.ApprovalRequired? ==> Here().live == Some(Live(MarkWaiting, dict.p))
      ensures exit.Raised? ==> Here().live == Some(Live(SaveError, dict.p.(error := Some(exit.message))))
    {
      hide Truthful, CallsOf, Str, Keys, Strip, Checkpointing, Run, Step;
      var plan := dict.p.plan;
      for index := 0 to |plan|
        invariant Standing(id, AtStep(index), dict.p) && dict.p.plan == plan
        invariant old(trace) <= trace && Truthful()
        invariant jobs.table == old(jobs.table)[id := Row0(Here())]
        invariant Row0(Here()).tenant == old(Row0(Here()).tenant)
      {
        exit := ExecuteStep(id, dict, index);
        if !exit.Returned? {
          return;
        }
      }
      exit := Returned;
    }

    /** max(int(key) for key in steps) */
    method LastIndex(steps: map<string, StepRecord>) returns (last: nat)
      requires steps != map[] && steps.Keys == Keys(|steps|)
      ensures last == |steps| - 1
    {
      var rest := steps.Keys;
      last := 0;
      while rest != {}
        invariant rest <= Keys(|steps|) && last < |steps|
        invariant forall i :: 0 <= i < |steps| && Str(i) !in rest ==> i <= last
        decreases rest
      {
        var key :| key in rest;
        ghost var i :| 0 <= i < |steps| && key == Str(i);
        IntStr(i);
        if Int(key) > last {
          last := Int(key);
        }
        forall j | 0 <= j < |steps| && Str(j) !in rest - {key}
          ensures j <= last
        {
          IntStr(j);
        }
        rest := rest - {key};
      }
      assert Str(|steps| - 1) !in rest;
    }

    /** The final state of the dictionary: completed, no error, and the last step's output as the result. */
    method Conclude(dict: ProgressDict)
      requires dict.p.steps.Keys == Keys(|dict.p.steps|)
      modifies dict
      ensures dict.p == Finalized(old(dict.p))
    {
      var steps := dict.p.steps;
      dict.p := dict.p.(phase := "completed", error := None);
      if steps != map[] {
        var last := LastIndex(steps);
        KeyIn(last, |steps|);
        dict.p := dict.p.(result := Some(steps[Str(last)].output));
      }
      hide Truthful, CallsOf, Str, Keys;
    }

    /** Records the result, then reports success. */
    method Finalize(id: string, row: Row, dict: ProgressDict, now: int) returns (exit: Exit)
      requires Standing(id, AtStep(|dict.p.plan|), dict.p) && row.tenant == jobs.table[id].tenant
      requires Truthful()
      modifies this`trace, jobs, dict
      ensures exit.Returned? || exit.Raised?
      ensures old(trace) <= trace && Checkpointing(Here()) && Truthful()
      ensures jobs.table == old(jobs.table)[id := Row0(Here())]
      ensures Row0(Here()).tenant == old(Row0(Here()).tenant)
      ensures exit.Returned? ==> Here().live.None? && Here().log.sealed
      ensures exit.Raised? ==> Here().live == Some(Live(SaveError, dict.p.(error := Some(exit.message))))
    {
      hide Truthful, CallsOf, Str, Keys, Strip, Checkpointing, Run, Step, Finalized;
      KeysOfLive(Here());
      AtTheEnd(parse, Here());
      Conclude(dict);
      Emit(Local);
      exit := SaveCheckpoint(id, dict, SaveFinal);
      if exit.Returned? {
        Meanwhile(id, MarkSucceeded, dict.p);
        exit := Report(id, row.tenant, Succeeded, now, MarkSucceeded, dict.p);
      }
    }

    /** The run proper, up to the first exception. */
    method Attempt(id: string, row: Row, dict: ProgressDict, now: int) returns (exit: Exit)
      requires Standing(id, Begin, dict.p)
      requires row.tenant == jobs.table[id].tenant && row.instructions == jobs.table[id].instructions
      requires Truthful()
      modifies this`trace, orchestrator, jobs, dict
      ensures old(trace) <= trace && Checkpointing(Here()) && Truthful()
      ensures jobs.table == old(jobs.table)[id := Row0(Here())]
      ensures Row0(Here()).tenant == old(Row0(Here()).tenant)
      ensures exit.Returned? ==> Here().live.None? && Here().log.sealed
      ensures exit.ApprovalRequired? ==> Here().live == Some(Live(MarkWaiting, dict.p))
      ensures exit.Raised? ==> Here().live == Some(Live(SaveError, dict.p.(error := Some(exit.message))))
    {
      hide Truthful, CallsOf, Str, Keys, Strip, Blank, Checkpointing, Run, Step, Here;
      exit := PromptOf(id, row, dict);
      if !exit.Returned? { return; }
      exit := EnsurePlan(id, row, dict);
      if !exit.Returned? { return; }
      exit := ExecuteSteps(id, dict);
      if !exit.Returned? { return; }
      exit := Finalize(id, row, dict, now);
    }

    /** An exception other than a pause is checkpointed before it is passed on. */
    method Execute(id: string, row: Row, now: int) returns (dict: ProgressDict, exit: Exit)
      requires Standing(id, Begin, row.progress)
      requires row.tenant == jobs.table[id].tenant && row.instructions == jobs.table[id].instructions
      requires Truthful()
      modifies this`trace, orchestrator, jobs
      ensures old(trace) <= trace && Checkpointing(Here()) && Truthful()
      ensures jobs.table == old(jobs.table)[id := Row0(Here())]
      ensures Row0(Here()).tenant == old(Row0(Here()).tenant)
      ensures exit.Returned? ==> Here().live.None? && Here().log.sealed
      ensures exit.ApprovalRequired? ==> Here().live == Some(Live(MarkWaiting, dict.p))
      ensures exit.Raised? ==> Here().live == Some(Live(MarkFailed, dict.p))
      ensures exit.Raised? && !outages ==> Stored(Here()) == dict.p
    {
      hide Truthful, CallsOf, Str, Keys, Strip, Blank, Checkpointing, Run, Step, Here;
      dict := new ProgressDict(row.progress);
      exit := Attempt(id, row, dict, now);
      if exit.Raised? {
        dict.p := dict.p.(error := Some(exit.message));
        var saved := SaveCheckpoint(id, dict, SaveError);
        if saved.Raised? {
          exit := saved;
        }
      }
    }

    /** The pause's second write. */
    method MarkWaitingApproval(id: string, row: Row, dict: ProgressDict, now: int)
      returns (ghost last: Row, ghost reported: bool)
      requires Standing(id, MarkWaiting, dict.p) && row.tenant == jobs.table[id].tenant
      requires Truthful()
      modifies this`trace, jobs
      ensures old(trace) <= trace && Checkpointing(Here()) && Truthful() && Here().live.None?
      ensures jobs.table == old(jobs.table)[id := Row0(Here())] && (!outages ==> reported)
      ensures last.progress == old(jobs.table)[id].progress
      ensures jobs.table[id] == if reported && last.status == Running
                                then last.(status := WaitingApproval, lockedAt := None, lockedBy := None) else last
    {
      hide Truthful, CallsOf, Str, Keys, Strip, Checkpointing, Run, Step;
      Meanwhile(id, MarkWaiting, dict.p);
      last := jobs.table[id];
      var closing := Report(id, row.tenant, WaitingApproval, now, MarkWaiting, dict.p);
      reported := closing.Returned? || last.status != Running;
    }

    /** The failure's; the two budgets decide where the row lands. */
    method MarkFailure(id: string, row: Row, dict: ProgressDict, now: int)
      returns (ghost last: Row, ghost reported: bool)
      requires Standing(id, MarkFailed, dict.p) && row.tenant == jobs.table[id].tenant
      requires Truthful()
      modifies this`trace, jobs
      ensures old(trace) <= trace && Checkpointing(Here()) && Truthful() && Here().live.None?
      ensures jobs.table == old(jobs.table)[id := Row0(Here())] && (!outages ==> reported)
      ensures last.progress == old(jobs.table)[id].progress
      ensures jobs.table[id] == if reported && last.status == Running
        then last.(status := if last.attempts < last.maxAttempts then Queued
                             else if last.retryCount < last.maxRetries then Failed else Dead,
                   lockedAt := None, lockedBy := None)
        else last
    {
      hide Truthful, CallsOf, Str, Keys, Strip, Checkpointing, Run, Step;
      Meanwhile(id, MarkFailed, dict.p);
      last := jobs.table[id];
      var closing := Report(id, row.tenant, Failed, now, MarkFailed, dict.p);
      reported := closing.Returned? || last.status != Running;
    }

    /** One run of a claimed job, whatever others do to the job meanwhile: it ends, and every write it made was a
        move of the machine. `exit` is how `_execute` ended, `last` the row as the closing status change found it, and
        `reported` says whether the database took that change. A run that ended in a pause leaves the row waiting and
        one that ended in another exception leaves it where its budgets say, if the row is still running. */
    method RunJob(id: string, row: Row, now: int) returns (ghost exit: Exit, ghost last: Row, ghost reported: bool)
      requires Standing(id, Begin, row.progress)
      requires row.tenant == jobs.table[id].tenant && row.instructions == jobs.table[id].instructions
      requires Truthful()
      modifies this`trace, orchestrator, jobs
      ensures old(trace) <= trace && Checkpointing(Here()) && Truthful()
      ensures jobs.table == old(jobs.table)[id := Row0(Here())]
      ensures Here().live.None? && start == old(start) && base == old(base)
      ensures old(orchestrator.calls) <= orchestrator.calls && (!outages ==> reported)
      ensures var r, asked := jobs.table[id], orchestrator.calls[|old(orchestrator.calls)|..];
        && InOrder(row.instructions, row.progress, r.progress.plan, asked)
        && match exit
           case Returned =>
             && Smooth(asked)
             && r.status == Succeeded && r.progress.phase == "completed" && r.progress.error.None?
             && |r.progress.steps| == |r.progress.plan| > 0
             && Str(|r.progress.plan| - 1) in r.progress.steps
             && r.progress.result == Some(r.progress.steps[Str(|r.progress.plan| - 1)].output)
           case ApprovalRequired =>
             && Asking(asked, r.progress)
             && r == if reported && last.status == Running
                     then last.(status := WaitingApproval, lockedAt := None, lockedBy := None) else last
           case Raised(_) =>
             && (!outages ==> Failing(asked, r.progress) && Hopeless(parse, row.instructions, asked, r.progress))
             && r == if reported && last.status == Running
                     then last.(status := if last.attempts < last.maxAttempts then Queued
                                          else if last.retryCount < last.maxRetries then Failed else Dead,
                                lockedAt := None, lockedBy := None)
                     else last
    {
      hide Truthful, CallsOf, Str, Keys, Strip, Checkpointing, Run, Step, InOrder, Smooth, Asking, Failing, Hopeless,
        Effect, CallAt;
      ghost var before, asked := trace, orchestrator.calls;
      WhatTruthfulSays();
      AsStored(Here());
      var dict, end := Execute(id, row, now);
      exit := end;
      WhatTruthfulSays();
      SuffixStory(parse, start, before, trace, base, asked, orchestrator.calls, !outages);
      AsStored(Here());
      match end {
        case Returned =>
          last, reported := jobs.table[id], true;
        case ApprovalRequired =>
          last, reported := MarkWaitingApproval(id, row, dict, now);
        case Raised(_) =>
          last, reported := MarkFailure(id, row, dict, now);
      }
    }
  }

  /** What a run has asked since it began, and where that leaves it. */
  lemma SuffixStory(
    parse: string -> seq<string>, start: Sys, before: seq<Move>, trace: seq<Move>, base: seq<Call>, asked: seq<Call>,
    calls: seq<Call>, calm: bool)
    requires before <= trace && RunOf(trace) && (calm ==> Calm(trace))
    requires asked == base + CallsOf(parse, start, before) && calls == base + CallsOf(parse, start, trace)
    requires var here := Run(parse, start, before); Checkpointing(here) && here.live == Some(Live(Begin, Stored(here)))
    ensures var here, s := Run(parse, start, before), Run(parse, start, trace);
      && asked <= calls && Row0(s).instructions == Row0(here).instructions
      && StoryAt(parse, s, calls[|asked|..], calm) && OrderAt(s, Stored(here), calls[|asked|..])
  {
    hide Run, CallsOf, Checkpointing, StoryAt, OrderAt;
    var rest := trace[|before|..];
    assert trace == before + rest;
    RunAppend(parse, start, before, rest);
    CallsAppend(parse, start, before, rest);
    StoryAlways(parse, Run(parse, start, before), rest, calm);
    assert calls[|asked|..] == CallsOf(parse, Run(parse, start, before), rest);
  }

  /** The runner's memory is what the table holds when it starts, when it reports a pause and, sealed, at the end. */
  lemma AsStored(s: Sys)
    requires Checkpointing(s)
    ensures s.live.Some? && (s.live.value.pc.Begin? || s.live.value.pc.MarkWaiting?) ==> s.live.value.mem == Stored(s)
    ensures s.log.sealed ==>
      var p := Stored(s);
      && Row0(s).status == Succeeded && p.phase == "completed" && p.error.None?
      && |p.steps| == |p.plan| > 0 && Str(|p.plan| - 1) in p.steps
      && p.result == Some(p.steps[Str(|p.plan| - 1)].output)
  {
    if s.log.sealed { Recorded(Stored(s), |Stored(s).plan| - 1); }
    hide Str, Keys;
  }

  lemma KeysOfLive(s: Sys)
    requires Checkpointing(s) && s.live.Some?
    ensures s.live.value.mem.steps.Keys == Keys(|s.live.value.mem.steps|)
  {
    hide Str, Keys;
  }

  lemma AtTheEnd(parse: string -> seq<string>, s: Sys)
    requires s.live.Some? && s.live.value.pc.AtStep? && s.live.value.pc.index >= |s.live.value.mem.plan|
    ensures After(parse, s, Local) == At(s, SaveFinal, Finalized(s.live.value.mem))
  {
    hide Str, Blank;
  }

  lemma SkipIs(parse: string -> seq<string>, s: Sys)
    requires s.live.Some? && s.live.value.pc.AtStep? && s.live.value.pc.index < |s.live.value.mem.plan|
    requires Str(s.live.value.pc.index) in s.live.value.mem.steps
    ensures After(parse, s, Local) == At(s, AtStep(s.live.value.pc.index + 1), s.live.value.mem)
  {
    hide Str;
  }

  lemma TurnIs(parse: string -> seq<string>, s: Sys, o: Outcome)
    requires s.live.Some? && s.live.value.pc.AtStep? && s.live.value.pc.index < |s.live.value.mem.plan|
    requires Str(s.live.value.pc.index) !in s.live.value.mem.steps
    ensures var s', p, i := After(parse, s, Turn(o)), s.live.value.mem, s.live.value.pc.index;
      && s'.job == s.job
      && s'.live == Some(
           if o.Failure? then Live(SaveError, p.(error := Some(o.message)))
           else if o.finishReason == APPROVAL then Live(SavePause, Paused(p, i, p.plan[i], o.content))
           else Live(SaveStep(i), Completed(p, i, StepRecord(p.plan[i], o.content, o.finishReason, o.agent))))
  {
    hide Str;
  }

  lemma EnvIs(parse: string -> seq<string>, s: Sys, ev: Event)
    requires !ev.Claimed? && !ev.Checkpointed?
    ensures var s' := After(parse, s, Env(ev));
      s'.live == s.live && Row0(s') == Fire(Row0(s), ev) && s'.log.sealed == s.log.sealed
  {
  }

  lemma WriteIs(parse: string -> seq<string>, s: Sys, ok: bool, message: string)
    requires s.live.Some? && (Saving(s.live.value.pc) || Marking(s.live.value.pc))
    ensures WriteStep(s, s.live.value, ok, message).Some?
    ensures After(parse, s, Write(ok, message)) == WriteStep(s, s.live.value, ok, message).value
  {
  }
}
