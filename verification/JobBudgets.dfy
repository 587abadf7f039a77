/** The two retry budgets and the claim lease, over every sequence of events on one job. */
module JobBudgets {
  import opened Base
  import opened JobRows
  import opened JobStore

  /** A row with what its past used up: claims and starts, effective plain requeues,
      and the requeues since the automatic budget was last reset. */
  datatype Tracked = Tracked(row: Row, claims: nat, requeues: nat, sinceReset: nat)

  function Begin(r: Row): Tracked { Tracked(r, 0, 0, 0) }

  function Track(t: Tracked, ev: Event): Tracked {
    if !Enabled(t.row, ev) then t else
    var row := Effect(t.row, ev);
    match ev
    case Started(_) => Tracked(row, t.claims + 1, t.requeues, t.sinceReset)
    case Claimed(_, _) => Tracked(row, t.claims + 1, t.requeues, t.sinceReset)
    case Retried => Tracked(row, t.claims, t.requeues, 0)
    case Moved(target) =>
      if target == Queued then Tracked(row, t.claims, t.requeues + 1, t.sinceReset + 1) else t.(row := row)
    case _ => t.(row := row)
  }

  function Replay(t: Tracked, evs: seq<Event>): Tracked {
    if evs == [] then t else Track(Replay(t, evs[..|evs| - 1]), evs[|evs| - 1])
  }

  /** How many of the events changed the status. */
  function Transitions(t: Tracked, evs: seq<Event>): nat {
    if evs == [] then 0 else
    var before := Replay(t, evs[..|evs| - 1]);
    Transitions(t, evs[..|evs| - 1]) + if Replay(t, evs).row.status != before.row.status then 1 else 0
  }

  ghost predicate Budget(t: Tracked) {
    var r := t.row;
    && r.maxAttempts >= 1
    && r.retryCount <= r.maxRetries
    && r.attempts <= r.maxAttempts + t.sinceReset
    && (r.status == Queued ==> r.attempts < r.maxAttempts + t.sinceReset)
    && (r.status == Failed ==> r.attempts >= r.maxAttempts && r.retryCount < r.maxRetries)
    && t.sinceReset <= t.requeues
    && t.claims <= r.retryCount * r.maxAttempts + (t.requeues - t.sinceReset) + r.attempts
  }

  /** A running job always holds a lease; a job no worker may hold has none. */
  ghost predicate LeaseDiscipline(r: Row) {
    && (r.status == Running ==> r.lockedAt.Some?)
    && (r.status in {Queued, Failed, WaitingApproval} ==> r.lockedAt.None? && r.lockedBy.None?)
  }

  lemma BudgetStep(t: Tracked, ev: Event)
    requires Budget(t) && LeaseDiscipline(t.row)
    ensures Budget(Track(t, ev)) && LeaseDiscipline(Track(t, ev).row)
    ensures Track(t, ev).row == Fire(t.row, ev)
  {
    if ev.Retried? && Enabled(t.row, ev) {
      var r := t.row;
      assert (r.retryCount + 1) * r.maxAttempts == r.retryCount * r.maxAttempts + r.maxAttempts;
    }
  }

  /** How often the job went from queued to running. */
  function Starts(r: Row, evs: seq<Event>): nat {
    if evs == [] then 0 else
    var front := evs[..|evs| - 1];
    Starts(r, front) + if FireAll(r, front).status == Queued && FireAll(r, evs).status == Running then 1 else 0
  }

  /** How often a plain UpdateJob(queued), not a retry or a failure, put it back into the queue. */
  function Requeues(r: Row, evs: seq<Event>): nat {
    if evs == [] then 0 else
    var front := evs[..|evs| - 1];
    Requeues(r, front) +
      if evs[|evs| - 1] == Moved(Queued) && FireAll(r, front).status != Queued && FireAll(r, evs).status == Queued
      then 1 else 0
  }

  lemma OneCounts(t: Tracked, ev: Event)
    ensures var u := Track(t, ev);
      && u.row == Fire(t.row, ev)
      && u.claims == t.claims + (if t.row.status == Queued && u.row.status == Running then 1 else 0)
      && u.requeues == t.requeues +
           (if ev == Moved(Queued) && t.row.status != Queued && u.row.status == Queued then 1 else 0)
  {
  }

  /** The counters count what they are said to. */
  lemma {:induction false} CountersCount(r: Row, evs: seq<Event>)
    ensures var t := Replay(Begin(r), evs);
      t.row == FireAll(r, evs) && t.claims == Starts(r, evs) && t.requeues == Requeues(r, evs)
  {
    if evs != [] {
      CountersCount(r, evs[..|evs| - 1]);
      OneCounts(Replay(Begin(r), evs[..|evs| - 1]), evs[|evs| - 1]);
      hide Track, Fire;
    }
  }

  /** Both budgets and the lease discipline hold after every sequence of events. */
  lemma {:induction false} BudgetAlways(r: Row, evs: seq<Event>)
    requires IsFresh(r)
    ensures Budget(Replay(Begin(r), evs)) && LeaseDiscipline(Replay(Begin(r), evs).row)
    ensures Replay(Begin(r), evs).row == FireAll(r, evs)
    ensures FireAll(r, evs).maxAttempts == r.maxAttempts && FireAll(r, evs).maxRetries == r.maxRetries
  {
    if evs != [] {
      BudgetAlways(r, evs[..|evs| - 1]);
      BudgetStep(Replay(Begin(r), evs[..|evs| - 1]), evs[|evs| - 1]);
    }
  }

  /** Lifetime bound: however the calls interleave, a job is claimed or started at most
      (maxRetries + 1) * maxAttempts times plus once per plain requeue. */
  lemma ClaimBound(r: Row, evs: seq<Event>)
    requires IsFresh(r)
    ensures Replay(Begin(r), evs).claims <= (r.maxRetries + 1) * r.maxAttempts + Replay(Begin(r), evs).requeues
  {
    BudgetAlways(r, evs);
    ClaimsWithin(Replay(Begin(r), evs));
  }

  lemma ClaimsWithin(t: Tracked)
    requires Budget(t)
    ensures t.claims <= (t.row.maxRetries + 1) * t.row.maxAttempts + t.requeues
  {
    var r := t.row;
    assert r.retryCount * r.maxAttempts <= r.maxRetries * r.maxAttempts by {
      MulMonotone(r.retryCount, r.maxRetries, r.maxAttempts);
    }
  }

  // ---- The bound is attained ----

  /** n claims of a queued job, each ending in a reported failure. */
  function Cycle(n: nat): seq<Event> {
    if n == 0 then [] else Cycle(n - 1) + [Claimed("", 0), FailReported]
  }

  function Exhaust(maxAttempts: nat, retries: nat): seq<Event> {
    if retries == 0 then Cycle(maxAttempts)
    else Exhaust(maxAttempts, retries - 1) + [Retried] + Cycle(maxAttempts)
  }

  function Revive(n: nat): seq<Event> {
    if n == 0 then [] else Revive(n - 1) + [Moved(Queued), Claimed("", 0), FailReported]
  }

  lemma {:induction false} ReplayAppend(t: Tracked, a: seq<Event>, b: seq<Event>)
    ensures Replay(t, a + b) == Replay(Replay(t, a), b)
  {
    if b == [] {
      assert a + b == a;
    } else {
      assert (a + b)[..|a + b| - 1] == a + b[..|b| - 1];
      ReplayAppend(t, a, b[..|b| - 1]);
    }
  }

  lemma ReplayTwo(t: Tracked, x: Event, y: Event)
    ensures Replay(t, [x, y]) == Track(Track(t, x), y)
  {
    assert [x, y][..1] == [x];
    assert Replay(t, [x]) == Track(t, x) by {
      assert [x][..0] == [];
    }
  }

  lemma {:induction false} CycleRuns(t: Tracked, n: nat)
    requires t.row.status == Queued && t.row.attempts == 0 && n <= t.row.maxAttempts
    ensures var u := Replay(t, Cycle(n));
      && u.claims == t.claims + n && u.requeues == t.requeues
      && u.row.attempts == n && u.row.retryCount == t.row.retryCount
      && u.row.maxAttempts == t.row.maxAttempts && u.row.maxRetries == t.row.maxRetries
      && u.row.status == if n == 0 || n < t.row.maxAttempts then Queued
                         else if t.row.retryCount < t.row.maxRetries then Failed else Dead
  {
    if n > 0 {
      CycleRuns(t, n - 1);
      ReplayAppend(t, Cycle(n - 1), [Claimed("", 0), FailReported]);
      ReplayTwo(Replay(t, Cycle(n - 1)), Claimed("", 0), FailReported);
    }
  }

  lemma OneMore(n: nat, c: nat)
    ensures (n + 1) * c == n * c + c
  {
  }

  lemma {:induction false} ExhaustRuns(r: Row, retries: nat)
    requires IsFresh(r) && retries <= r.maxRetries
    ensures var u := Replay(Begin(r), Exhaust(r.maxAttempts, retries));
      && u.claims == (retries + 1) * r.maxAttempts && u.requeues == 0
      && u.row.attempts == r.maxAttempts && u.row.retryCount == retries
      && u.row.maxAttempts == r.maxAttempts && u.row.maxRetries == r.maxRetries
      && u.row.status == if retries < r.maxRetries then Failed else Dead
  {
    if retries == 0 {
      CycleRuns(Begin(r), r.maxAttempts);
    } else {
      ExhaustRuns(r, retries - 1);
      var e := Exhaust(r.maxAttempts, retries - 1);
      var u := Replay(Begin(r), e);
      ReplayAppend(Begin(r), e + [Retried], Cycle(r.maxAttempts));
      assert (e + [Retried])[..|e|] == e;
      assert Replay(Begin(r), e + [Retried]) == Track(u, Retried);
      assert Exhaust(r.maxAttempts, retries) == e + [Retried] + Cycle(r.maxAttempts);
      hide Exhaust, Cycle;
      CycleRuns(Track(u, Retried), r.maxAttempts);
      hide Replay;
      OneMore(retries, r.maxAttempts);
    }
  }

  lemma {:induction false} ReviveRuns(t: Tracked, n: nat)
    requires t.row.status == Dead && t.row.attempts >= t.row.maxAttempts && t.row.retryCount >= t.row.maxRetries
    ensures var u := Replay(t, Revive(n));
      && u.row.status == Dead && u.claims == t.claims + n && u.requeues == t.requeues + n
      && u.row.attempts == t.row.attempts + n
      && u.row.maxAttempts == t.row.maxAttempts
      && u.row.retryCount == t.row.retryCount && u.row.maxRetries == t.row.maxRetries
  {
    if n > 0 {
      ReviveRuns(t, n - 1);
      var last := [Moved(Queued), Claimed("", 0), FailReported];
      ReplayAppend(t, Revive(n - 1), last);
      var u := Replay(t, Revive(n - 1));
      assert last[..2] == [Moved(Queued), Claimed("", 0)];
      ReplayTwo(u, Moved(Queued), Claimed("", 0));
    }
  }

  /** No smaller bound holds: for every budget and every number R of requeues some run
      reaches (maxRetries + 1) * maxAttempts + R claims. */
  lemma ClaimBoundIsReached(r: Row, requeues: nat) returns (evs: seq<Event>)
    requires IsFresh(r)
    ensures Replay(Begin(r), evs).requeues == requeues
    ensures Replay(Begin(r), evs).claims == (r.maxRetries + 1) * r.maxAttempts + requeues
  {
    var e := Exhaust(r.maxAttempts, r.maxRetries);
    ExhaustRuns(r, r.maxRetries);
    ReviveRuns(Replay(Begin(r), e), requeues);
    ReplayAppend(Begin(r), e, Revive(requeues));
    evs := e + Revive(requeues);
  }

  // ---- Termination ----

  function Rank(s: Status): nat {
    match s
    case Running => 4
    case Queued => 3
    case WaitingApproval => 2
    case Failed => 1
    case _ => 0
  }

  /** What a job may still do when at most `limit` plain requeues are ever granted. */
  ghost function Potential(t: Tracked, limit: nat): int {
    var r := t.row;
    6 * (limit - t.requeues) + (2 * r.maxAttempts + 3) * (r.maxRetries - r.retryCount)
      + 2 * (r.maxAttempts + t.sinceReset - r.attempts) + Rank(r.status)
  }

  /** Every event that changes the status strictly lowers the potential; the others keep it. */
  lemma PotentialDrops(t: Tracked, ev: Event, limit: nat)
    requires Budget(t)
    ensures var u := Track(t, ev);
      Potential(u, limit) <= Potential(t, limit) - if u.row.status != t.row.status then 1 else 0
  {
    var r := t.row;
    if ev.Retried? && Enabled(r, ev) {
      var c, d := 2 * r.maxAttempts + 3, r.maxRetries - r.retryCount;
      assert c * d == c * (d - 1) + c;
    }
  }

  lemma {:induction false} TransitionsSpendPotential(r: Row, evs: seq<Event>, limit: nat)
    requires IsFresh(r)
    ensures Transitions(Begin(r), evs) <= Potential(Begin(r), limit) - Potential(Replay(Begin(r), evs), limit)
  {
    if evs != [] {
      TransitionsSpendPotential(r, evs[..|evs| - 1], limit);
      BudgetAlways(r, evs[..|evs| - 1]);
      PotentialDrops(Replay(Begin(r), evs[..|evs| - 1]), evs[|evs| - 1], limit);
    }
  }

  /** Every run of status transitions is finite, and this short: linear in the plain requeues it contains. */
  lemma TransitionBound(r: Row, evs: seq<Event>)
    requires IsFresh(r)
    ensures Transitions(Begin(r), evs)
      <= 6 * Replay(Begin(r), evs).requeues + (2 * r.maxAttempts + 3) * (r.maxRetries + 1)
  {
    var t := Replay(Begin(r), evs);
    TransitionsSpendPotential(r, evs, t.requeues);
    BudgetAlways(r, evs);
    PotentialIsNonNegative(t);
    InitialPotential(r, t.requeues);
  }

  lemma PotentialIsNonNegative(t: Tracked)
    requires Budget(t)
    ensures Potential(t, t.requeues) >= 0
  {
    var c, d := 2 * t.row.maxAttempts + 3, t.row.maxRetries - t.row.retryCount;
    assert c * d >= 0;
  }

  lemma InitialPotential(r: Row, limit: nat)
    requires IsFresh(r)
    ensures Potential(Begin(r), limit) == 6 * limit + (2 * r.maxAttempts + 3) * (r.maxRetries + 1)
  {
    var c, d := 2 * r.maxAttempts + 3, r.maxRetries;
    assert c * (d + 1) == c * d + c;
  }

  // ---- Whole tables ----

  /** In every reachable table the lease discipline and the budgets hold of every row;
      so a reap whose cutoff is later than all stamps leaves no job running. */
  lemma NoStranding(tes: seq<TableEvent>, cutoff: int)
    requires CreatesFresh(tes)
    requires forall id :: id in TableRun(tes) && TableRun(tes)[id].lockedAt.Some? ==>
      TableRun(tes)[id].lockedAt.value < cutoff
    ensures forall id :: id in TableRun(tes) ==>
      && LeaseDiscipline(TableRun(tes)[id])
      && TableRun(tes)[id].retryCount <= TableRun(tes)[id].maxRetries
      && OnTable(TableRun(tes), ReapAll(cutoff))[id].status != Running
  {
    forall id | id in TableRun(tes)
      ensures LeaseDiscipline(TableRun(tes)[id]) && TableRun(tes)[id].retryCount <= TableRun(tes)[id].maxRetries
    {
      var r0, evs := RowsEvolveAlone(tes, id);
      BudgetAlways(r0, evs);
    }
  }

  /** A retry request accepted in any reachable table is within the manual budget. */
  lemma RetryNeverOverspends(tes: seq<TableEvent>, tenant: string, id: string)
    requires CreatesFresh(tes)
    requires Answer(TableRun(tes), Some(tenant), id, Retried).Ok?
    ensures var r := TableRun(tes)[id];
      r.attempts >= r.maxAttempts && r.retryCount < r.maxRetries
  {
    var r0, evs := RowsEvolveAlone(tes, id);
    BudgetAlways(r0, evs);
  }
}
