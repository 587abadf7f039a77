/** The `jobs` table: the service methods that update it in place, and the table
    function each of them computes. */
module JobStore {
  import opened Base
  import opened JobRows

  type Table = map<string, Row>

  /** One atomic statement. `scope` is the tenant filter; the runner's and the
      heartbeat's writes carry none. */
  datatype TableEvent =
    | Create(newId: string, row: Row)
    | One(scope: Option<string>, id: string, ev: Event)
    | ReapAll(cutoff: int)
    | ClaimAll(batch: set<string>, owner: string, now: int)

  predicate Visible(t: Table, scope: Option<string>, id: string) {
    id in t && (scope.Some? ==> t[id].tenant == scope.value)
  }

  function QueuedIds(t: Table): set<string> { set id | id in t && t[id].status == Queued }

  function ExpiredIds(t: Table, cutoff: int): set<string> { set id | id in t && Expired(t[id], cutoff) }

  /** What a statement means for one row: the event that fires on it, if any. */
  function EventFor(te: TableEvent, id: string, r: Row): Option<Event> {
    match te
    case Create(_, _) => None
    case One(scope, target, ev) =>
      if target == id && (scope.Some? ==> r.tenant == scope.value) then Some(ev) else None
    case ReapAll(cutoff) => Some(Reaped(cutoff))
    case ClaimAll(batch, owner, now) => if id in batch then Some(Claimed(owner, now)) else None
  }

  function OnRow(te: TableEvent, id: string, r: Row): Row {
    match EventFor(te, id, r)
    case None => r
    case Some(ev) => Fire(r, ev)
  }

  function OnTable(t: Table, te: TableEvent): Table {
    if te.Create? then
      (if te.newId in t then t else t[te.newId := te.row])
    else
      map id | id in t :: OnRow(te, id, t[id])
  }

  /** What a tenant-scoped guarded statement answers. */
  function Answer(t: Table, scope: Option<string>, id: string, ev: Event): Result<Row> {
    if !Visible(t, scope, id) then Err(NotFound)
    else if !Enabled(t[id], ev) then Err(BadState(StatusName(t[id].status)))
    else Ok(Effect(t[id], ev))
  }

  function EventOf(target: Status, now: int): Event {
    match target
    case Running => Started(now)
    case Failed => FailReported
    case _ => Moved(target)
  }

  /** `batch` is a legal answer of "the oldest `limit` of `available`": ties may go either way. */
  ghost predicate OldestBatch(t: Table, available: set<string>, batch: set<string>, limit: nat)
    requires available <= t.Keys
  {
    && batch <= available
    && |batch| == Min(limit, |available|)
    && forall c, q :: c in batch && q in available - batch ==> t[c].createdAt <= t[q].createdAt
  }

  class JobService {
    var table: Table

    constructor ()
      ensures table == map[]
    {
      table := map[];
    }

    /** The row of a new id is queued, has used nothing, holds no lease and knows no progress. */
    method CreateJob(id: string, tenant: string, instructions: string, maxAttempts: nat, maxRetries: nat, now: int)
      modifies this
      ensures table == OnTable(old(table), Create(id, Fresh(tenant, instructions, maxAttempts, maxRetries, now)))
      ensures table.Keys == old(table).Keys + {id}
      ensures forall k :: k in old(table) ==> table[k] == old(table)[k]
      ensures id !in old(table) ==>
        var r := table[id];
        && r.status == Queued && r.attempts == r.retryCount == 0
        && r.maxAttempts == maxAttempts && r.maxRetries == maxRetries
        && r.tenant == tenant && r.instructions == instructions && r.createdAt == now
        && r.progress == NO_PROGRESS && r.lockedAt.None? && r.lockedBy.None?
    {
      if id !in table {
        table := table[id := Fresh(tenant, instructions, maxAttempts, maxRetries, now)];
      }
    }

    /** UPDATE ... WHERE id AND tenant AND status IN allowedFrom ... RETURNING. */
    method GuardedUpdate(tenant: string, id: string, allowedFrom: set<Status>, values: Row -> Row)
      returns (r: Result<Row>)
      modifies this
      ensures !Visible(old(table), Some(tenant), id) ==> r == Err(NotFound)
      ensures Visible(old(table), Some(tenant), id) && old(table)[id].status !in allowedFrom
        ==> r == Err(BadState(StatusName(old(table)[id].status)))
      ensures Visible(old(table), Some(tenant), id) && old(table)[id].status in allowedFrom
        ==> r == Ok(values(old(table)[id]))
      ensures table == if r.Ok? then old(table)[id := values(old(table)[id])] else old(table)
    {
      if id in table && table[id].tenant == tenant && table[id].status in allowedFrom {
        table := table[id := values(table[id])];
        return Ok(table[id]);
      }
      if id !in table || table[id].tenant != tenant {
        return Err(NotFound);
      }
      return Err(BadState(StatusName(table[id].status)));
    }

    /** The statuses each target is entered from, and what else of the row changes. */
    method Update(tenant: string, id: string, target: Status, now: int) returns (r: Result<Row>)
      modifies this
      ensures r.Ok? <==>
        && id in old(table) && old(table)[id].tenant == tenant
        && var from := old(table)[id].status;
           match target
           case Queued => from in {Failed, Dead, Cancelled, WaitingApproval}
           case Running => from == Queued
           case Succeeded => from == Running
           case Failed => from == Running
           case Dead => from in {Failed, Running}
           case Cancelled => from in {Queued, Running, WaitingApproval}
           case WaitingApproval => from == Running
      ensures r.Err? ==>
        && table == old(table)
        && r.error == if id in old(table) && old(table)[id].tenant == tenant
                      then BadState(StatusName(old(table)[id].status)) else NotFound
      ensures r.Ok? ==>
        && table == old(table)[id := r.value]
        && var was := old(table)[id];
           match target
           case Running => r.value == was.(status := Running, attempts := was.attempts + 1,
                                           lockedAt := Some(now), lockedBy := None)
           case Failed => r.value == was.(status := if was.attempts < was.maxAttempts then Queued
                                                    else if was.retryCount < was.maxRetries then Failed else Dead,
                                          lockedAt := None, lockedBy := None)
           case _ => r.value == if target in {Queued, WaitingApproval}
                                then was.(status := target, lockedAt := None, lockedBy := None)
                                else was.(status := target)
      ensures r == Answer(old(table), Some(tenant), id, EventOf(target, now))
      ensures table == OnTable(old(table), One(Some(tenant), id, EventOf(target, now)))
    {
      if target == Running {
        r := Start(tenant, id, now);
      } else if target == Failed {
        r := Fail(tenant, id);
      } else {
        var releases := target == Queued || target == WaitingApproval;
        r := GuardedUpdate(tenant, id, AllowedEntry(target), (row: Row) =>
          if releases then row.(status := target, lockedAt := None, lockedBy := None)
          else row.(status := target));
        OneRow(old(table), Some(tenant), id, Moved(target));
      }
    }

    /** The job runs, under a lease that starts now and that nobody owns. */
    method Start(tenant: string, id: string, now: int) returns (r: Result<Row>)
      modifies this
      ensures r.Ok? <==> id in old(table) && old(table)[id].tenant == tenant && old(table)[id].status == Queued
      ensures r.Ok? ==>
        && table == old(table)[id := r.value]
        && r.value == old(table)[id].(status := Running, attempts := old(table)[id].attempts + 1,
                                      lockedAt := Some(now), lockedBy := None)
      ensures r == Answer(old(table), Some(tenant), id, Started(now))
      ensures table == OnTable(old(table), One(Some(tenant), id, Started(now)))
    {
      r := GuardedUpdate(tenant, id, {Queued}, (row: Row) =>
        row.(status := Running, attempts := row.attempts + 1, lockedAt := Some(now), lockedBy := None));
      OneRow(old(table), Some(tenant), id, Started(now));
    }

    /** The automatic budget first, then the manual one. */
    method Fail(tenant: string, id: string) returns (r: Result<Row>)
      modifies this
      ensures r.Ok? <==> id in old(table) && old(table)[id].tenant == tenant && old(table)[id].status == Running
      ensures r.Ok? ==>
        && table == old(table)[id := r.value]
        && var was := old(table)[id];
           r.value == was.(status := if was.attempts < was.maxAttempts then Queued
                                     else if was.retryCount < was.maxRetries then Failed else Dead,
                           lockedAt := None, lockedBy := None)
      ensures r == Answer(old(table), Some(tenant), id, FailReported)
      ensures table == OnTable(old(table), One(Some(tenant), id, FailReported))
    {
      r := GuardedUpdate(tenant, id, {Running}, (row: Row) =>
        row.(status := NextStatusAfterFailure(row), lockedAt := None, lockedBy := None));
      OneRow(old(table), Some(tenant), id, FailReported);
    }

    /** One manual retry is spent, and the automatic budget starts over. */
    method Retry(tenant: string, id: string) returns (r: Result<Row>)
      modifies this
      ensures r.Ok? <==> id in old(table) && old(table)[id].tenant == tenant && old(table)[id].status == Failed
      ensures r.Ok? ==>
        && table == old(table)[id := r.value]
        && var was := old(table)[id];
           r.value == was.(status := Queued, attempts := 0, retryCount := was.retryCount + 1,
                           lockedAt := None, lockedBy := None)
      ensures r == Answer(old(table), Some(tenant), id, Retried)
      ensures table == OnTable(old(table), One(Some(tenant), id, Retried))
    {
      r := GuardedUpdate(tenant, id, {Failed}, (row: Row) =>
        row.(status := Queued, attempts := 0, retryCount := row.retryCount + 1,
             lockedAt := None, lockedBy := None));
      OneRow(old(table), Some(tenant), id, Retried);
    }

    /** The heartbeat: true iff the job was still running. */
    method RenewLease(id: string, now: int) returns (renewed: bool)
      modifies this
      ensures renewed == (id in old(table) && old(table)[id].status == Running)
      ensures table == if renewed then old(table)[id := old(table)[id].(lockedAt := Some(now))] else old(table)
      ensures table == OnTable(old(table), One(None, id, Renewed(now)))
    {
      renewed := id in table && table[id].status == Running;
      if renewed {
        table := table[id := table[id].(lockedAt := Some(now))];
      }
      OneRow(old(table), None, id, Renewed(now));
    }

    method SaveProgress(id: string, progress: Progress) returns (r: Result<()>)
      modifies this
      ensures r == if id in old(table) then Ok(()) else Err(NotFound)
      ensures table == if r.Ok? then old(table)[id := old(table)[id].(progress := progress)] else old(table)
      ensures table == OnTable(old(table), One(None, id, Checkpointed(progress)))
    {
      OneRow(table, None, id, Checkpointed(progress));
      if id !in table {
        return Err(NotFound);
      }
      table := table[id := table[id].(progress := progress)];
      return Ok(());
    }

    /** Releases every run whose lease is older than `lease`; the result names the released jobs. */
    method ReapExpired(lease: int, now: int) returns (reaped: set<string>)
      modifies this
      ensures table.Keys == old(table).Keys
      ensures forall id :: id in reaped <==>
        && id in old(table) && old(table)[id].status == Running
        && old(table)[id].lockedAt.Some? && now - old(table)[id].lockedAt.value > lease
      ensures forall id :: id in reaped ==>
        var was := old(table)[id];
        table[id] == was.(status := if was.attempts < was.maxAttempts then Queued
                                    else if was.retryCount < was.maxRetries then Failed else Dead,
                          lockedAt := None, lockedBy := None)
      ensures reaped == ExpiredIds(old(table), now - lease)
      ensures table == OnTable(old(table), ReapAll(now - lease))
      ensures forall id :: id in old(table) ==>
        table[id] == (if id in reaped then Effect(old(table)[id], FailReported) else old(table)[id])
    {
      var cutoff := now - lease;
      reaped := set id | id in table && table[id].status == Running
                      && table[id].lockedAt.Some? && table[id].lockedAt.value < cutoff;
      table := map id | id in table ::
        if id in reaped
        then table[id].(status := NextStatusAfterFailure(table[id]), lockedAt := None, lockedBy := None)
        else table[id];
    }

    /** Claims up to `limit` of the oldest queued jobs: each runs, one attempt later, under a lease of `owner` that
        starts now. */
    method ClaimBatch(limit: nat, owner: string, now: int) returns (batch: seq<string>)
      modifies this
      ensures Distinct(batch)
      ensures OldestBatch(old(table), QueuedIds(old(table)), Elements(batch), limit)
      ensures table == OnTable(old(table), ClaimAll(Elements(batch), owner, now))
      ensures table.Keys == old(table).Keys && |batch| <= limit
      ensures forall id :: id in old(table) && old(table)[id].status == Queued && id !in batch ==>
        && |batch| == limit
        && forall c :: c in batch ==> c in old(table) && old(table)[c].createdAt <= old(table)[id].createdAt
      ensures forall id :: id in old(table) ==>
        var was := old(table)[id];
        && (id in batch ==> was.status == Queued)
        && table[id] == if id in batch
                        then was.(status := Running, attempts := was.attempts + 1,
                                  lockedAt := Some(now), lockedBy := Some(owner))
                        else was
    {
      batch := SelectOldest(table, QueuedIds(table), limit);
      table := map id | id in table ::
        if id in batch
        then table[id].(status := Running, attempts := table[id].attempts + 1,
                        lockedAt := Some(now), lockedBy := Some(owner))
        else table[id];
      assert Elements(batch) <= QueuedIds(old(table));
      LeftBehind(old(table), batch, limit);
    }
  }

  /** SELECT ... ORDER BY created_at LIMIT. */
  method SelectOldest(t: Table, available: set<string>, limit: nat) returns (batch: seq<string>)
    requires available <= t.Keys
    ensures Distinct(batch)
    ensures OldestBatch(t, available, Elements(batch), limit)
  {
    hide Chosen, OldestBatch, Elements, Distinct;
    batch := [];
    var rest := available;
    NothingChosen(t, available);
    while |batch| < limit && rest != {}
      invariant |batch| <= limit && Chosen(t, available, batch, rest)
      decreases rest
    {
      var oldest := Oldest(t, rest);
      ChooseOne(t, available, batch, rest, oldest);
      batch, rest := batch + [oldest], rest - {oldest};
    }
    ChosenIsOldest(t, available, batch, rest, limit);
  }

  /** `batch` holds the oldest rows of `available`, each once, and `rest` the others. */
  ghost predicate Chosen(t: Table, available: set<string>, batch: seq<string>, rest: set<string>)
    requires available <= t.Keys
  {
    && Distinct(batch)
    && rest <= available && Elements(batch) == available - rest
    && forall c, q :: c in Elements(batch) && q in rest ==> t[c].createdAt <= t[q].createdAt
  }

  lemma NothingChosen(t: Table, available: set<string>)
    requires available <= t.Keys
    ensures Chosen(t, available, [], available)
  {
  }

  lemma ChooseOne(t: Table, available: set<string>, batch: seq<string>, rest: set<string>, oldest: string)
    requires available <= t.Keys && Chosen(t, available, batch, rest)
    requires oldest in rest && forall q :: q in rest ==> t[oldest].createdAt <= t[q].createdAt
    ensures Chosen(t, available, batch + [oldest], rest - {oldest})
  {
    assert Elements(batch + [oldest]) == Elements(batch) + {oldest};
    forall i | 0 <= i < |batch|
      ensures batch[i] != oldest
    {
      assert batch[i] in Elements(batch);
    }
  }

  lemma ChosenIsOldest(t: Table, available: set<string>, batch: seq<string>, rest: set<string>, limit: nat)
    requires available <= t.Keys && Chosen(t, available, batch, rest)
    requires |batch| <= limit && (|batch| == limit || rest == {})
    ensures Distinct(batch) && OldestBatch(t, available, Elements(batch), limit)
  {
    DistinctSize(batch);
    assert available == Elements(batch) + rest;
  }

  /** A queued job is left behind only by a full batch of jobs that are no younger. */
  lemma LeftBehind(t: Table, batch: seq<string>, limit: nat)
    requires Distinct(batch) && OldestBatch(t, QueuedIds(t), Elements(batch), limit)
    ensures |batch| <= limit
    ensures forall id :: id in t && t[id].status == Queued && id !in batch ==>
      |batch| == limit && forall c :: c in batch ==> c in t && t[c].createdAt <= t[id].createdAt
  {
    DistinctSize(batch);
    forall id | id in t && t[id].status == Queued && id !in batch
      ensures |batch| == limit && forall c :: c in batch ==> c in t && t[c].createdAt <= t[id].createdAt
    {
      assert id in QueuedIds(t) - Elements(batch);
      assert forall c :: c in batch ==> c in Elements(batch);
      if |batch| == |QueuedIds(t)| {
        SameSize(Elements(batch), QueuedIds(t));
      }
    }
  }

  lemma SameSize(a: set<string>, b: set<string>)
    requires a <= b && |a| == |b|
    ensures a == b
  {
    assert b == a + (b - a);
    assert |b| == |a| + |b - a|;
  }

  method Oldest(t: Table, ids: set<string>) returns (oldest: string)
    requires ids != {} && ids <= t.Keys
    ensures oldest in ids
    ensures forall q :: q in ids ==> t[oldest].createdAt <= t[q].createdAt
  {
    oldest :| oldest in ids;
    var rest := ids - {oldest};
    while rest != {}
      invariant rest <= ids && oldest in ids
      invariant forall q :: q in ids - rest ==> t[oldest].createdAt <= t[q].createdAt
      decreases rest
    {
      var q :| q in rest;
      if t[q].createdAt < t[oldest].createdAt {
        oldest := q;
      }
      rest := rest - {q};
    }
  }

  /** A scoped statement touches at most the row it names, and only within its tenant. */
  lemma OneRow(t: Table, scope: Option<string>, id: string, ev: Event)
    ensures OnTable(t, One(scope, id, ev)) ==
      if Answer(t, scope, id, ev).Ok? then t[id := Effect(t[id], ev)] else t
  {
  }

  /** The same request, made at another moment. */
  predicate SameRequest(a: Event, b: Event) {
    match (a, b)
    case (Started(_), Started(_)) => true
    case (Claimed(x, _), Claimed(y, _)) => x == y
    case _ => a == b
  }

  function OnJob(t: Table, tenant: string, id: string, evs: seq<Event>): Table {
    if evs == [] then t
    else OnTable(OnJob(t, tenant, id, evs[..|evs| - 1]), One(Some(tenant), id, evs[|evs| - 1]))
  }

  /** Of any number of requests for the same thing, made of one job at whatever moments with nothing between them,
      the first decides: the table ends as after it, and every later one is refused. */
  lemma {:induction false} OneWinner(t: Table, tenant: string, id: string, evs: seq<Event>, again: Event)
    requires evs != [] && !again.Renewed? && !again.Checkpointed?
    requires forall k :: 0 <= k < |evs| ==> SameRequest(evs[k], again)
    ensures OnJob(t, tenant, id, evs) == OnTable(t, One(Some(tenant), id, evs[0]))
    ensures Answer(OnJob(t, tenant, id, evs), Some(tenant), id, again).Err?
  {
    var front, last := evs[..|evs| - 1], evs[|evs| - 1];
    if front == [] {
      OneRow(t, Some(tenant), id, last);
      if Answer(t, Some(tenant), id, last).Ok? {
        SelfDisabling(t[id], last);
        AlikeEnabled(Effect(t[id], last), last, again);
      } else if Visible(t, Some(tenant), id) {
        AlikeEnabled(t[id], last, again);
      }
    } else {
      OneWinner(t, tenant, id, front, last);
      OneWinner(t, tenant, id, front, again);
      OneRow(OnJob(t, tenant, id, front), Some(tenant), id, last);
    }
  }

  /** When a request is made does not matter to whether it is accepted. */
  lemma AlikeEnabled(r: Row, a: Event, b: Event)
    requires SameRequest(a, b)
    ensures Enabled(r, a) == Enabled(r, b)
  {
  }

  // ---- Every row of every reachable table lives its own event history ----

  function TableRun(tes: seq<TableEvent>): Table {
    if tes == [] then map[] else OnTable(TableRun(tes[..|tes| - 1]), tes[|tes| - 1])
  }

  /** Rows enter the table only as freshly created jobs with a positive automatic budget. */
  ghost predicate CreatesFresh(tes: seq<TableEvent>) {
    forall i :: 0 <= i < |tes| && tes[i].Create? ==> IsFresh(tes[i].row)
  }

  ghost predicate IsFresh(r: Row) {
    && r == Fresh(r.tenant, r.instructions, r.maxAttempts, r.maxRetries, r.createdAt)
    && r.maxAttempts >= 1
  }

  function FireAll(r: Row, evs: seq<Event>): Row {
    if evs == [] then r else Fire(FireAll(r, evs[..|evs| - 1]), evs[|evs| - 1])
  }

  /** Whatever statements ran, a row is its created state after some events on it alone. */
  lemma {:induction false} RowsEvolveAlone(tes: seq<TableEvent>, id: string) returns (r0: Row, evs: seq<Event>)
    requires CreatesFresh(tes) && id in TableRun(tes)
    ensures IsFresh(r0) && TableRun(tes)[id] == FireAll(r0, evs)
  {
    var before, te := TableRun(tes[..|tes| - 1]), tes[|tes| - 1];
    if id in before {
      r0, evs := RowsEvolveAlone(tes[..|tes| - 1], id);
      var more := EventFor(te, id, before[id]);
      if more.Some? {
        assert (evs + [more.value])[..|evs|] == evs;
        evs := evs + [more.value];
      }
    } else {
      r0, evs := te.row, [];
    }
  }
}
