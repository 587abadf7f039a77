/** The poller's tick: reap, claim a batch, run its jobs one after the other. */
module Poller {
  import opened Base
  import opened JobRows
  import opened JobStore
  import opened CheckpointMachine
  import opened Checkpoints
  import opened Schedules
  import opened RunStory
  import opened Runner

  /** What is known of every job in the table: the machine it has been through so far. */
  type Book = map<string, Sys>

  /** Each row is its machine's row and no job has a live runner. */
  ghost predicate Resting(t: Table, book: Book) {
    && book.Keys == t.Keys
    && forall id :: id in t ==>
      Row0(book[id]) == t[id] && Checkpointing(book[id]) && book[id].live.None?
  }

  /** While a tick runs its batch: the jobs in `waiting` are claimed and their runs have not begun. */
  ghost predicate Ticking(t: Table, book: Book, waiting: seq<string>) {
    && book.Keys == t.Keys
    && forall id :: id in t ==>
      && Row0(book[id]) == t[id] && Checkpointing(book[id])
      && (if id in waiting then book[id].live == Some(Live(Begin, t[id].progress)) else book[id].live.None?)
  }

  /** The reaper's statement, job by job. */
  function Reap(parse: string -> seq<string>, book: Book, cutoff: int): Book {
    map id | id in book :: After(parse, book[id], Env(Reaped(cutoff)))
  }

  lemma ReapedRest(parse: string -> seq<string>, t: Table, book: Book, cutoff: int)
    requires Resting(t, book)
    ensures Resting(OnTable(t, ReapAll(cutoff)), Reap(parse, book, cutoff))
  {
    hide Checkpointing, Run;
    forall id | id in book
      ensures var s := After(parse, book[id], Env(Reaped(cutoff)));
        Row0(s) == Fire(t[id], Reaped(cutoff)) && Checkpointing(s) && s.live.None?
    {
      StepKeeps(parse, book[id], Env(Reaped(cutoff)));
    }
  }

  /** The claim's statement, job by job. */
  function Take(parse: string -> seq<string>, book: Book, batch: seq<string>, owner: string, now: int): Book {
    map id | id in book :: if id in batch then After(parse, book[id], Claim(owner, now)) else book[id]
  }

  lemma Taken(parse: string -> seq<string>, t: Table, book: Book, batch: seq<string>, owner: string, now: int)
    requires Resting(t, book) && Elements(batch) <= QueuedIds(t)
    ensures Ticking(OnTable(t, ClaimAll(Elements(batch), owner, now)), Take(parse, book, batch, owner, now), batch)
    ensures forall id :: id in batch ==>
      id in book && Take(parse, book, batch, owner, now)[id].log.runs == book[id].log.runs + 1
  {
    hide Checkpointing, Run;
    assert forall id :: id in batch ==> id in Elements(batch);
    forall id | id in book
      ensures var s := Take(parse, book, batch, owner, now)[id];
        && Row0(s) == OnTable(t, ClaimAll(Elements(batch), owner, now))[id] && Checkpointing(s)
        && (if id in batch then s.live == Some(Live(Begin, t[id].progress)) && s.log.runs == book[id].log.runs + 1
            else s.live.None?)
    {
      if id in batch {
        StepKeeps(parse, book[id], Claim(owner, now));
      }
    }
  }

  /** The book in the middle of a tick: reaped and claimed. */
  function InBatch(
      parse: string -> seq<string>, book: Book, batch: seq<string>, owner: string, now: int, cutoff: int): Book {
    Take(parse, Reap(parse, book, cutoff), batch, owner, now)
  }

  // ---- Running a batch ----

  /** What has happened to each job since the batch was claimed. */
  type Runs = map<string, seq<Move>>

  ghost function Since(parse: string -> seq<string>, taken: Book, runs: Runs): Book
    requires runs.Keys == taken.Keys
  {
    map id | id in taken :: Run(parse, taken[id], runs[id])
  }

  /** The first k jobs of the batch have been run; to the other jobs nothing happened but requests by others. */
  ghost predicate Tidy(batch: seq<string>, k: nat, runs: Runs)
    requires k <= |batch|
  {
    forall id :: id in runs ==> if id in batch[..k] then RunOf(runs[id]) else OthersOnly(runs[id])
  }

  /** What the orchestrator is asked while the batch is run. */
  ghost function Asked(parse: string -> seq<string>, taken: Book, batch: seq<string>, runs: Runs): seq<Call>
    requires runs.Keys == taken.Keys && forall id :: id in batch ==> id in taken
  {
    if batch == [] then [] else
    var last := batch[|batch| - 1];
    Asked(parse, taken, batch[..|batch| - 1], runs) + CallsOf(parse, taken[last], runs[last])
  }

  /** Jobs that are asked about nothing new. */
  lemma {:induction false} AskedSame(
      parse: string -> seq<string>, taken: Book, batch: seq<string>, runs: Runs, more: Runs)
    requires runs.Keys == more.Keys == taken.Keys && forall id :: id in batch ==> id in taken
    requires forall id :: id in batch ==> CallsOf(parse, taken[id], more[id]) == CallsOf(parse, taken[id], runs[id])
    ensures Asked(parse, taken, batch, more) == Asked(parse, taken, batch, runs)
  {
    hide CallsOf;
    if batch != [] {
      assert batch[|batch| - 1] in batch;
      AskedSame(parse, taken, batch[..|batch| - 1], runs, more);
    }
  }

  lemma SinceAt(parse: string -> seq<string>, taken: Book, runs: Runs, id: string, moves: seq<Move>)
    requires runs.Keys == taken.Keys && id in taken
    ensures var more := runs[id := moves];
      && more.Keys == taken.Keys
      && Since(parse, taken, more) == Since(parse, taken, runs)[id := Run(parse, taken[id], moves)]
  {
    hide Run;
    assert runs[id := moves].Keys == runs.Keys + {id} == taken.Keys;
  }

  lemma RunOfMore(a: seq<Move>, b: seq<Move>)
    requires RunOf(a) && RunOf(b)
    ensures RunOf(a + b)
  {
  }

  lemma OthersAreRuns(moves: seq<Move>)
    requires OthersOnly(moves)
    ensures RunOf(moves)
  {
  }

  lemma TidyRequest(batch: seq<string>, k: nat, runs: Runs, id: string, ev: Event)
    requires k <= |batch| && Tidy(batch, k, runs) && id in runs
    ensures Tidy(batch, k, runs[id := runs[id] + [Env(ev)]])
  {
    assert RunOf([Env(ev)]) && OthersOnly([Env(ev)]);
    if id in batch[..k] { RunOfMore(runs[id], [Env(ev)]); }
    hide RunOf;
  }

  lemma TidyRun(batch: seq<string>, k: nat, runs: Runs, moves: seq<Move>)
    requires k < |batch| && Tidy(batch, k, runs) && batch[k] in runs && Distinct(batch) && RunOf(moves)
    ensures batch[..k + 1] == batch[..k] + [batch[k]] && batch[k] !in batch[..k] && OthersOnly(runs[batch[k]])
    ensures Tidy(batch, k + 1, runs[batch[k] := runs[batch[k]] + moves])
  {
    assert batch[..k + 1] == batch[..k] + [batch[k]] && batch[k] !in batch[..k];
    OthersAreRuns(runs[batch[k]]);
    RunOfMore(runs[batch[k]], moves);
    hide RunOf, OthersOnly, Distinct;
  }

  lemma RequestedByOthers(
    parse: string -> seq<string>, taken: Book, batch: seq<string>, k: nat, runs: Runs, id: string, ev: Event)
    requires runs.Keys == taken.Keys && id in taken && k <= |batch| && Tidy(batch, k, runs)
    requires forall id :: id in batch ==> id in taken
    ensures var more := runs[id := runs[id] + [Env(ev)]];
      && more.Keys == taken.Keys && Tidy(batch, k, more)
      && Since(parse, taken, more)
        == Since(parse, taken, runs)[id := After(parse, Since(parse, taken, runs)[id], Env(ev))]
      && Asked(parse, taken, batch[..k], more) == Asked(parse, taken, batch[..k], runs)
  {
    hide Run, CallsOf, After, Tidy;
    var more := runs[id := runs[id] + [Env(ev)]];
    TidyRequest(batch, k, runs, id, ev);
    SinceAt(parse, taken, runs, id, runs[id] + [Env(ev)]);
    RunOne(parse, taken[id], runs[id], Env(ev));
    CallsAppend(parse, taken[id], runs[id], [Env(ev)]);
    OthersAskNothing(parse, Run(parse, taken[id], runs[id]), [Env(ev)]);
    assert CallsOf(parse, taken[id], more[id]) == CallsOf(parse, taken[id], runs[id]);
    AskedSame(parse, taken, batch[..k], runs, more);
  }

  lemma RunByRunner(
    parse: string -> seq<string>, taken: Book, batch: seq<string>, k: nat, runs: Runs, moves: seq<Move>)
    requires runs.Keys == taken.Keys && k < |batch| && Tidy(batch, k, runs) && Distinct(batch) && RunOf(moves)
    requires forall id :: id in batch ==> id in taken
    ensures var id := batch[k];
      var more := runs[id := runs[id] + moves];
      && more.Keys == taken.Keys && Tidy(batch, k + 1, more)
      && Since(parse, taken, more) == Since(parse, taken, runs)[id := Run(parse, Since(parse, taken, runs)[id], moves)]
      && Asked(parse, taken, batch[..k + 1], more)
           == Asked(parse, taken, batch[..k], runs) + CallsOf(parse, Since(parse, taken, runs)[id], moves)
  {
    hide Run, CallsOf, Tidy, RunOf, OthersOnly, Distinct;
    var id := batch[k];
    var more := runs[id := runs[id] + moves];
    assert id in batch;
    TidyRun(batch, k, runs, moves);
    SinceAt(parse, taken, runs, id, runs[id] + moves);
    RunAppend(parse, taken[id], runs[id], moves);
    CallsAppend(parse, taken[id], runs[id], moves);
    OthersAskNothing(parse, taken[id], runs[id]);
    AskedSame(parse, taken, batch[..k], runs, more);
    assert batch[..k + 1][..k] == batch[..k];
    assert [] + CallsOf(parse, Run(parse, taken[id], runs[id]), moves) == CallsOf(parse, taken[id], more[id]);
  }

  lemma NothingYet(parse: string -> seq<string>, taken: Book, batch: seq<string>)
    requires forall id :: id in batch ==> id in taken
    ensures var runs := map id | id in taken :: [];
      && Since(parse, taken, runs) == taken && Tidy(batch, 0, runs) && Asked(parse, taken, batch[..0], runs) == []
  {
  }

  // ---- One tick ----

  /** What one tick, up to the next one, does to every job: one that is not in the batch is reaped if its lease ran
      out and then only sees requests by others; one that is in the batch is also claimed, once, and then run to the
      end of a run, with requests by others before, within and after it. */
  ghost predicate Ticked(
    parse: string -> seq<string>, owner: string, now: int, cutoff: int,
    before: Book, batch: seq<string>, runs: Runs, after: Book)
  {
    && after.Keys == runs.Keys == before.Keys && Distinct(batch)
    && forall id :: id in before ==> JobTicked(parse, owner, now, cutoff, before[id], id in batch, runs[id], after[id])
  }

  ghost predicate JobTicked(
    parse: string -> seq<string>, owner: string, now: int, cutoff: int, s: Sys, claimed: bool, moves: seq<Move>,
      s': Sys)
  {
    if claimed then
      && RunOf(moves) && s'.live.None? && s'.log.runs == s.log.runs + 1
      && s' == Run(parse, s, [Env(Reaped(cutoff)), Claim(owner, now)] + moves)
    else
      OthersOnly(moves) && s' == Run(parse, s, [Env(Reaped(cutoff))] + moves)
  }

  ghost predicate SomeTick(
    parse: string -> seq<string>, owner: string, now: int, cutoff: int, limit: nat, before: Book, after: Book)
  {
    exists batch, runs :: |batch| <= limit && Ticked(parse, owner, now, cutoff, before, batch, runs, after)
  }

  lemma ClaimedAt(
    parse: string -> seq<string>, book: Book, batch: seq<string>, owner: string, now: int, cutoff: int, id: string)
    requires id in book
    ensures InBatch(parse, book, batch, owner, now, cutoff).Keys == book.Keys
    ensures var reaped := After(parse, book[id], Env(Reaped(cutoff)));
      InBatch(parse, book, batch, owner, now, cutoff)[id]
        == if id in batch then After(parse, reaped, Claim(owner, now)) else reaped
  {
    hide After;
  }

  lemma RestingAt(t: Table, book: Book, id: string)
    requires Resting(t, book) && id in book
    ensures book[id].live.None?
  {
  }

  lemma TickIsDone(
    parse: string -> seq<string>, t: Table, before: Book, batch: seq<string>, runs: Runs, owner: string, now: int,
      cutoff: int)
    requires Distinct(batch) && Tidy(batch, |batch|, runs) && runs.Keys == before.Keys
    requires var taken := InBatch(parse, before, batch, owner, now, cutoff);
      && taken.Keys == before.Keys
      && (forall id :: id in batch ==>
            && id in before
            && taken[id].log.runs == After(parse, before[id], Env(Reaped(cutoff))).log.runs + 1)
      && Resting(t, Since(parse, taken, runs))
    ensures var taken := InBatch(parse, before, batch, owner, now, cutoff);
      Ticked(parse, owner, now, cutoff, before, batch, runs, Since(parse, taken, runs))
  {
    hide Run, After, RunOf, OthersOnly, Checkpointing, InBatch, Distinct, JobTicked, Resting;
    var taken := InBatch(parse, before, batch, owner, now, cutoff);
    assert batch[..|batch|] == batch;
    forall id | id in before
      ensures JobTicked(parse, owner, now, cutoff, before[id], id in batch, runs[id], Since(parse, taken, runs)[id])
    {
      ClaimedAt(parse, before, batch, owner, now, cutoff, id);
      RestingAt(t, Since(parse, taken, runs), id);
      OneJobsTick(parse, before[id], owner, now, cutoff, id in batch, runs[id]);
    }
  }

  lemma OneJobsTick(
    parse: string -> seq<string>, s: Sys, owner: string, now: int, cutoff: int, claimed: bool, moves: seq<Move>)
    requires if claimed then RunOf(moves) else OthersOnly(moves)
    requires var reaped := After(parse, s, Env(Reaped(cutoff)));
      claimed ==>
        && After(parse, reaped, Claim(owner, now)).log.runs == reaped.log.runs + 1
        && Run(parse, After(parse, reaped, Claim(owner, now)), moves).live.None?
    ensures var reaped := After(parse, s, Env(Reaped(cutoff)));
      JobTicked(parse, owner, now, cutoff, s, claimed, moves,
                Run(parse, if claimed then After(parse, reaped, Claim(owner, now)) else reaped, moves))
  {
    hide Run, RunOf, OthersOnly;
    ReapIsNoClaim(parse, s, cutoff);
    if claimed {
      RunTwo(parse, s, Env(Reaped(cutoff)), Claim(owner, now));
      RunAppend(parse, s, [Env(Reaped(cutoff)), Claim(owner, now)], moves);
      RunsAreClaims(parse, After(parse, After(parse, s, Env(Reaped(cutoff))), Claim(owner, now)), moves);
    } else {
      RunJust(parse, s, Env(Reaped(cutoff)));
      RunAppend(parse, s, [Env(Reaped(cutoff))], moves);
    }
    hide After;
  }

  lemma ReapIsNoClaim(parse: string -> seq<string>, s: Sys, cutoff: int)
    ensures After(parse, s, Env(Reaped(cutoff))).log.runs == s.log.runs
  {
  }

  lemma NextInLine(t: Table, book: Book, waiting: seq<string>, id: string)
    requires Ticking(t, book, [id] + waiting) && id in t
    ensures id in book && Row0(book[id]) == t[id] && Checkpointing(book[id])
    ensures book[id].live == Some(Live(Begin, t[id].progress))
  {
    hide Checkpointing;
    assert id in [id] + waiting;
  }

  lemma OneFewer(t: Table, book: Book, waiting: seq<string>, id: string, t': Table, s: Sys)
    requires Ticking(t, book, [id] + waiting) && id in t && id !in waiting
    requires t' == t[id := Row0(s)] && Checkpointing(s) && s.live.None?
    ensures Ticking(t', book[id := s], waiting)
  {
    hide Checkpointing;
  }

  /** A request leaves waiting jobs waiting, whatever it does to their status. */
  lemma StillTicking(parse: string -> seq<string>, t: Table, book: Book, waiting: seq<string>, id: string, ev: Event)
    requires Ticking(t, book, waiting) && id in t && id in book && !ev.Claimed? && !ev.Checkpointed?
    ensures Ticking(OnTable(t, One(None, id, ev)), book[id := After(parse, book[id], Env(ev))], waiting)
  {
    TickingAt(t, book, waiting, id);
    hide Ticking, Checkpointing, After, Fire;
    StepKeeps(parse, book[id], Env(ev));
    EnvIs(parse, book[id], ev);
    SameProgress(t[id], ev);
    OneRowOf(t, id, ev);
    TickingWith(t, book, waiting, id, Fire(t[id], ev), After(parse, book[id], Env(ev)));
  }

  lemma TickingAt(t: Table, book: Book, waiting: seq<string>, id: string)
    requires Ticking(t, book, waiting) && id in t
    ensures id in book && Row0(book[id]) == t[id] && Checkpointing(book[id])
  {
    hide Checkpointing;
  }

  lemma TickingWith(t: Table, book: Book, waiting: seq<string>, id: string, r: Row, s: Sys)
    requires Ticking(t, book, waiting) && id in t && id in book
    requires Row0(s) == r && Checkpointing(s) && s.live == book[id].live && r.progress == t[id].progress
    ensures Ticking(t[id := r], book[id := s], waiting)
  {
    hide Checkpointing;
  }

  lemma SameProgress(r: Row, ev: Event)
    requires !ev.Checkpointed?
    ensures Fire(r, ev).progress == r.progress
  {
  }

  lemma OneRowOf(t: Table, id: string, ev: Event)
    requires id in t
    ensures OnTable(t, One(None, id, ev)) == t[id := Fire(t[id], ev)]
  {
    hide Effect, Enabled;
  }

  class JobPoller {
    const jobs: JobService
    const runner: JobRunner
    const hasRunner: bool
    const owner: string
    const batchSize: nat
    const lease: int

    constructor (jobs: JobService, runner: JobRunner, hasRunner: bool, owner: string, batchSize: nat, lease: int)
      requires runner.jobs == jobs
      ensures this.jobs == jobs && this.runner == runner && this.hasRunner == hasRunner && this.owner == owner
      ensures this.batchSize == batchSize && this.lease == lease
    {
      this.jobs, this.runner, this.hasRunner, this.owner := jobs, runner, hasRunner, owner;
      this.batchSize, this.lease := batchSize, lease;
    }

    /** One tick. The batch is the oldest queued jobs after the reap, as many as the limit allows; each of them is
        reaped if it had expired, claimed and run, and asks the orchestrator what its run asks; to every other job
        nothing happens but a reap and what others do meanwhile. No runner is left behind. */
    method Tick(now: int, ghost book: Book)
      returns (claimed: nat, ghost batch: seq<string>, ghost runs: Runs, ghost book': Book)
      requires runner.jobs == jobs && Resting(jobs.table, book)
      modifies jobs, runner`start, runner`trace, runner`base, runner.orchestrator
      ensures Resting(jobs.table, book') && claimed == |batch|
      ensures !hasRunner ==>
        && claimed == 0 && jobs.table == old(jobs.table) && book' == book
        && runner.orchestrator.calls == old(runner.orchestrator.calls)
      ensures hasRunner ==>
        var reaped := OnTable(old(jobs.table), ReapAll(now - lease));
        var taken := InBatch(runner.parse, book, batch, owner, now, now - lease);
        && OldestBatch(reaped, QueuedIds(reaped), Elements(batch), batchSize)
        && claimed == Min(batchSize, |QueuedIds(reaped)|)
        && Ticked(runner.parse, owner, now, now - lease, book, batch, runs, book')
        && taken.Keys == runs.Keys && (forall id :: id in batch ==> id in taken)
        && runner.orchestrator.calls == old(runner.orchestrator.calls) + Asked(runner.parse, taken, batch, runs)
    {
      hide Resting, Ticking, Ticked, Checkpointing, OnTable, QueuedIds, OldestBatch, Run, RunOf, Tidy, Since, Asked,
        Take, Reap, CallsOf, After, Elements, Distinct;
      if !hasRunner {
        return 0, [], map[], book;
      }
      ReapedRest(runner.parse, jobs.table, book, now - lease);
      var _ := jobs.ReapExpired(lease, now);
      ghost var reaped, reapedTable := Reap(runner.parse, book, now - lease), jobs.table;
      var rows := jobs.ClaimBatch(batchSize, owner, now);
      BatchFacts(reapedTable, rows, batchSize);
      Taken(runner.parse, reapedTable, reaped, rows, owner, now);
      ghost var taken := InBatch(runner.parse, book, rows, owner, now, now - lease);
      BatchInBook(runner.parse, reapedTable, book, rows, owner, now, now - lease);
      batch := rows;
      runs := RunBatch(rows, now, taken);
      book' := Since(runner.parse, taken, runs);
      TickIsDone(runner.parse, jobs.table, book, rows, runs, owner, now, now - lease);
      claimed := |rows|;
    }

    /** The polling loop: one tick at each of `times`, the moments before the process is told to stop. */
    method Poll(times: seq<int>, ghost book: Book) returns (ghost books: seq<Book>)
      requires runner.jobs == jobs && Resting(jobs.table, book)
      modifies jobs, runner`start, runner`trace, runner`base, runner.orchestrator
      ensures |books| == |times| + 1 && books[0] == book && Resting(jobs.table, books[|times|])
      ensures forall k :: 0 <= k < |times| ==> TickFrom(times[k], books[k], books[k + 1])
    {
      hide Resting, Ticked;
      books := [book];
      var tick := 0;
      while tick < |times|
        invariant 0 <= tick <= |times| && |books| == tick + 1 && books[0] == book
        invariant Resting(jobs.table, books[tick])
        invariant forall k :: 0 <= k < tick ==> TickFrom(times[k], books[k], books[k + 1])
      {
        ghost var book';
        ghost var batch;
        ghost var runs;
        var claimed;
        claimed, batch, runs, book' := Tick(times[tick], books[tick]);
        assert TickFrom(times[tick], books[tick], book');
        books := books + [book'];
        tick := tick + 1;
      }
    }

    ghost predicate TickFrom(now: int, before: Book, after: Book) {
      if hasRunner then SomeTick(runner.parse, owner, now, now - lease, batchSize, before, after) else after == before
    }

    /** The claimed rows, one after the other; meanwhile others may send requests about any job, or reap it. */
    method RunBatch(rows: seq<string>, now: int, ghost taken: Book) returns (ghost runs: Runs)
      requires runner.jobs == jobs && Ticking(jobs.table, taken, rows)
      requires Distinct(rows) && forall id :: id in rows ==> id in taken
      modifies jobs, runner`start, runner`trace, runner`base, runner.orchestrator
      ensures runs.Keys == taken.Keys && Tidy(rows, |rows|, runs)
      ensures Resting(jobs.table, Since(runner.parse, taken, runs))
      ensures runner.orchestrator.calls == old(runner.orchestrator.calls) + Asked(runner.parse, taken, rows, runs)
    {
      hide Resting, Ticking, Checkpointing, Run, RunOf, Tidy, Since, Asked, CallsOf, After;
      runs := map id | id in taken :: [];
      NothingYet(runner.parse, taken, rows);
      assert rows[0..] == rows;
      for k := 0 to |rows|
        invariant runs.Keys == taken.Keys && Tidy(rows, k, runs)
        invariant Ticking(jobs.table, Since(runner.parse, taken, runs), rows[k..])
        invariant runner.orchestrator.calls
          == old(runner.orchestrator.calls) + Asked(runner.parse, taken, rows[..k], runs)
      {
        assert rows[k] in rows && rows[k..] == [rows[k]] + rows[k + 1..];
        runs := Meanwhile(rows, k, taken, runs);
        KeysOfTicking(runner.parse, jobs.table, taken, runs, rows[k..]);
        ghost var moves := Dispatch(rows[k], now, Since(runner.parse, taken, runs), rows[k + 1..]);
        RunByRunner(runner.parse, taken, rows, k, runs, moves);
        runs := runs[rows[k] := runs[rows[k]] + moves];
      }
      assert rows[|rows|..] == [] && rows[..|rows|] == rows;
      runs := Meanwhile(rows, |rows|, taken, runs);
      RestedAtEnd(jobs.table, Since(runner.parse, taken, runs));
    }

    /** Any number of requests and reaps by others, about any jobs: those that wait for their turn, those that have been
        run, and those outside the batch. */
    method Meanwhile(rows: seq<string>, ghost k: nat, ghost taken: Book, ghost runs: Runs) returns (ghost runs': Runs)
      requires runs.Keys == taken.Keys && k <= |rows| && Tidy(rows, k, runs) && forall id :: id in rows ==> id in taken
      requires Ticking(jobs.table, Since(runner.parse, taken, runs), rows[k..])
      modifies jobs
      ensures runs'.Keys == taken.Keys && Tidy(rows, k, runs')
      ensures Ticking(jobs.table, Since(runner.parse, taken, runs'), rows[k..])
      ensures Asked(runner.parse, taken, rows[..k], runs') == Asked(runner.parse, taken, rows[..k], runs)
    {
      hide Ticking, Tidy, Since, Asked, OnTable, After;
      runs' := runs;
      var requests: int := *;
      for i := 0 to Max(0, requests)
        invariant runs'.Keys == taken.Keys && Tidy(rows, k, runs')
        invariant Ticking(jobs.table, Since(runner.parse, taken, runs'), rows[k..])
        invariant Asked(runner.parse, taken, rows[..k], runs') == Asked(runner.parse, taken, rows[..k], runs)
      {
        var id: string := *;
        var ev: Event := *;
        if id in jobs.table && !ev.Claimed? && !ev.Checkpointed? {
          KeysOfTicking(runner.parse, jobs.table, taken, runs', rows[k..]);
          StillTicking(runner.parse, jobs.table, Since(runner.parse, taken, runs'), rows[k..], id, ev);
          RequestedByOthers(runner.parse, taken, rows, k, runs', id, ev);
          jobs.table := OnTable(jobs.table, One(None, id, ev));
          runs' := runs'[id := runs'[id] + [Env(ev)]];
        }
      }
    }

    /** Hands one claimed row to the runner. */
    method Dispatch(id: string, now: int, ghost book: Book, ghost waiting: seq<string>) returns (ghost moves: seq<Move>)
      requires runner.jobs == jobs && id in jobs.table && id !in waiting
      requires Ticking(jobs.table, book, [id] + waiting)
      modifies jobs, runner`start, runner`trace, runner`base, runner.orchestrator
      ensures id in book && RunOf(moves)
      ensures Ticking(jobs.table, book[id := Run(runner.parse, book[id], moves)], waiting)
      ensures runner.orchestrator.calls == old(runner.orchestrator.calls) + CallsOf(runner.parse, book[id], moves)
    {
      hide Ticking, Checkpointing, Run, CallsOf, RunOf;
      NextInLine(jobs.table, book, waiting, id);
      runner.TakeOver(book[id]);
      ghost var before := jobs.table;
      var _, _, _ := runner.RunJob(id, jobs.table[id], now);
      moves := runner.trace;
      OneFewer(before, book, waiting, id, jobs.table, runner.Here());
    }
  }

  lemma RestedAtEnd(t: Table, book: Book)
    requires Ticking(t, book, [])
    ensures Resting(t, book)
  {
  }

  lemma KeysOfTicking(parse: string -> seq<string>, t: Table, taken: Book, runs: Runs, waiting: seq<string>)
    requires runs.Keys == taken.Keys && Ticking(t, Since(parse, taken, runs), waiting)
    ensures t.Keys == taken.Keys == Since(parse, taken, runs).Keys
  {
    hide Run, Checkpointing;
  }

  lemma BatchInBook(
    parse: string -> seq<string>, t: Table, book: Book, batch: seq<string>, owner: string, now: int, cutoff: int)
    requires Resting(t, Reap(parse, book, cutoff)) && forall id :: id in batch ==> id in t
    requires forall id :: id in batch ==>
      && id in Reap(parse, book, cutoff)
      && InBatch(parse, book, batch, owner, now, cutoff)[id].log.runs == Reap(parse, book, cutoff)[id].log.runs + 1
    ensures InBatch(parse, book, batch, owner, now, cutoff).Keys == book.Keys
    ensures forall id :: id in batch ==>
      && id in book
      && InBatch(parse, book, batch, owner, now, cutoff)[id].log.runs
           == After(parse, book[id], Env(Reaped(cutoff))).log.runs + 1
  {
    hide After, Checkpointing;
  }

  lemma BatchFacts(t: Table, batch: seq<string>, limit: nat)
    requires Distinct(batch) && OldestBatch(t, QueuedIds(t), Elements(batch), limit)
    ensures |batch| == Min(limit, |QueuedIds(t)|) && Elements(batch) <= QueuedIds(t) <= t.Keys
    ensures forall k :: 0 <= k < |batch| ==> batch[k] in t && batch[k] !in batch[k + 1..]
    ensures forall id :: id in batch ==> id in t
  {
    DistinctSize(batch);
    assert forall k :: 0 <= k < |batch| ==> batch[k] in Elements(batch);
  }
}
