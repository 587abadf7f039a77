/** Stretches of schedules and where they lead, for the results that some schedule exists. */
module Schedules {
  import opened Base
  import opened Decimal
  import opened Text
  import opened JobRows
  import opened JobBudgets
  import opened CheckpointMachine

  lemma RunSnoc(parse: string -> seq<string>, s: Sys, a: seq<Move>, k: nat)
    requires k < |a|
    ensures Run(parse, s, a[..k + 1]) == After(parse, Run(parse, s, a[..k]), a[k])
  {
    assert a[..k + 1][..k] == a[..k];
  }

  lemma RunJust(parse: string -> seq<string>, s: Sys, x: Move)
    ensures Run(parse, s, [x]) == After(parse, s, x)
  {
    assert [x][..0] == [];
  }

  lemma RunTwo(parse: string -> seq<string>, s: Sys, x: Move, y: Move)
    ensures Run(parse, s, [x, y]) == After(parse, After(parse, s, x), y)
  {
    assert [x, y][..1] == [x] && [x][..0] == [];
    assert Run(parse, s, [x]) == After(parse, s, x);
  }

  /** A claim and a planning call whose plan is checkpointed. */
  function Opening(content: string): seq<Move> {
    [Claim("", 0), Plan(Reply(content, "stop", "")), Write(true, "")]
  }

  lemma Opened(parse: string -> seq<string>, s: Sys, content: string)
    requires s.live.None? && Row0(s).status == Queued && !Blank(Row0(s).instructions)
    requires Stored(s).plan == [] && parse(content) != []
    ensures var s', p := Run(parse, s, Opening(content)), Planned(Stored(s), parse(content));
      && s'.live == Some(Live(AtStep(0), p))
      && s'.job == Track(Track(s.job, Claimed("", 0)), Checkpointed(p))
      && s'.log == s.log.(runs := s.log.runs + 1, planCalls := s.log.planCalls + 1)
  {
    hide Str, Blank, Track;
    var a := Opening(content);
    assert a[..0] == [] && a[..3] == a;
    RunSnoc(parse, s, a, 0);
    RunSnoc(parse, s, a, 1);
    RunSnoc(parse, s, a, 2);
    assert Track(s.job, Claimed("", 0)).row == Effect(Row0(s), Claimed("", 0)) by { ClaimedRow(s.job); }
  }

  lemma ClaimedRow(t: Tracked)
    requires t.row.status == Queued
    ensures Track(t, Claimed("", 0)).row == Effect(t.row, Claimed("", 0))
  {
  }

  /** n steps in a row that need no call. */
  function Skips(n: nat): seq<Move> { seq(n, i => Local) }

  /** Recorded steps are passed over. */
  lemma {:induction false} Skipped(parse: string -> seq<string>, s: Sys, mem: Progress, from: nat, n: nat)
    requires s.live == Some(Live(AtStep(from), mem)) && from + n <= |mem.plan|
    requires forall i :: from <= i < from + n ==> Str(i) in mem.steps
    ensures Run(parse, s, Skips(n)) == At(s, AtStep(from + n), mem)
  {
    hide Str;
    if n > 0 {
      Skipped(parse, s, mem, from, n - 1);
      assert Skips(n)[..n - 1] == Skips(n - 1);
      assert Str(from + n - 1) in mem.steps;
    }
  }

  /** The next n steps, each called and checkpointed. */
  function Steps(output: string, n: nat): seq<Move> {
    if n == 0 then [] else Steps(output, n - 1) + [Turn(Reply(output, "stop", "")), Write(true, "")]
  }

  /** The runner stands before step k of its plan, having saved everything it did. */
  ghost predicate Before(s: Sys, plan: seq<string>, k: nat) {
    && s.live == Some(Live(AtStep(k), Stored(s)))
    && Good(Stored(s)) && Stored(s).plan == plan && |Stored(s).steps| == k <= |plan|
    && Stored(s).result.None?
  }

  lemma OneStep(parse: string -> seq<string>, s: Sys, plan: seq<string>, k: nat, output: string)
    requires Before(s, plan, k) && k < |plan|
    ensures var s' := Run(parse, s, [Turn(Reply(output, "stop", "")), Write(true, "")]);
      && Before(s', plan, k + 1)
      && Str(k) in Stored(s').steps && Stored(s').steps[Str(k)].output == output
      && Row0(s') == Row0(s).(progress := Stored(s'))
  {
    hide Str, Keys;
    var rec := StepRecord(plan[k], output, "stop", "");
    Recorded(Stored(s), k);
    RecordNext(Stored(s), rec);
    hide Good, Extends;
    RunTwo(parse, s, Turn(Reply(output, "stop", "")), Write(true, ""));
    assert After(parse, s, Turn(Reply(output, "stop", ""))).live
      == Some(Live(SaveStep(k), Completed(Stored(s), k, rec)));
  }

  lemma {:induction false} Worked(
      parse: string -> seq<string>, s: Sys, plan: seq<string>, output: string, k: nat, n: nat)
    requires Before(s, plan, k) && k + n <= |plan|
    ensures var s' := Run(parse, s, Steps(output, n));
      && Before(s', plan, k + n)
      && (n > 0 ==> Str(k + n - 1) in Stored(s').steps && Stored(s').steps[Str(k + n - 1)].output == output)
      && (n == 0 ==> s' == s)
      && Row0(s') == Row0(s).(progress := Stored(s'))
  {
    hide Before, Str, Keys, After;
    if n == 0 {
      assert Run(parse, s, Steps(output, n)) == s;
    } else {
      var last := [Turn(Reply(output, "stop", "")), Write(true, "")];
      Worked(parse, s, plan, output, k, n - 1);
      var s1 := Run(parse, s, Steps(output, n - 1));
      OneStep(parse, s1, plan, k + n - 1, output);
      RunAppend(parse, s, Steps(output, n - 1), last);
      assert Run(parse, s, Steps(output, n)) == Run(parse, s1, last);
    }
  }

  /** n claims, each lost with its runner and reaped. */
  function Losses(n: nat): seq<Move> {
    if n == 0 then [] else Losses(n - 1) + [Claim("", 0)] + [Crash] + [Env(Reaped(1))]
  }

  lemma {:induction false} Lost(parse: string -> seq<string>, s: Sys, n: nat)
    requires s.live.None? && Row0(s).status == Queued && Row0(s).attempts == 0 && n < Row0(s).maxAttempts
    requires Row0(s).lockedAt.None? && Row0(s).lockedBy.None?
    ensures var s' := Run(parse, s, Losses(n)); s'.live.None? && Row0(s') == Row0(s).(attempts := n)
  {
    if n > 0 {
      Lost(parse, s, n - 1);
      hide Run, After, Str;
      var a := Losses(n - 1);
      RunOne(parse, s, a, Claim("", 0));
      RunOne(parse, s, a + [Claim("", 0)], Crash);
      RunOne(parse, s, a + [Claim("", 0)] + [Crash], Env(Reaped(1)));
      OneLoss(parse, Run(parse, s, a));
    }
  }

  lemma OneLoss(parse: string -> seq<string>, s: Sys)
    requires s.live.None? && Row0(s).status == Queued && Row0(s).attempts + 1 < Row0(s).maxAttempts
    requires Row0(s).lockedAt.None? && Row0(s).lockedBy.None?
    ensures var s' := After(parse, After(parse, After(parse, s, Claim("", 0)), Crash), Env(Reaped(1)));
      s'.live.None? && Row0(s') == Row0(s).(attempts := Row0(s).attempts + 1)
  {
    hide Str;
  }

  lemma Finishing(parse: string -> seq<string>, s: Sys)
    requires s.live.Some? && s.live.value.pc.AtStep? && s.live.value.pc.index >= |s.live.value.mem.plan|
    ensures After(parse, s, Local) == At(s, SaveFinal, Finalized(s.live.value.mem))
  {
    hide Str;
  }

  /** The two last writes of a run. */
  lemma Closed(parse: string -> seq<string>, s: Sys)
    requires s.live.Some? && s.live.value.pc.SaveFinal? && Row0(s).status == Running
    ensures var s' := After(parse, After(parse, s, Write(true, "")), Write(true, ""));
      s'.log.sealed && Row0(s').status == Succeeded
  {
    hide Str;
  }
}
