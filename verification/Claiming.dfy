/** Any number of pollers claiming at once. A claim locks its batch, skipping rows that
    are locked already, then updates and commits; other statements wait for row locks. */
module Claiming {
  import opened Base
  import opened JobRows
  import opened JobStore

  /** `held` is the batch each in-flight claim has locked. `out` collects the jobs handed
      to a poller that have not been back in the queue since. */
  datatype Pool = Pool(table: Table, held: map<string, set<string>>, out: set<string>)

  /** `busy` are rows some other statement has locked at that moment. */
  datatype Act =
    | Lock(poller: string, batch: set<string>, limit: nat, busy: set<string>)
    | Commit(poller: string, now: int)
    | Abort(poller: string)
    | Other(id: string, ev: Event)
    | Arrive(id: string, row: Row)

  predicate Locked(s: Pool, id: string) { exists p :: p in s.held && id in s.held[p] }

  function Unlocked(s: Pool, busy: set<string>): set<string> {
    set id | id in QueuedIds(s.table) && !Locked(s, id) && id !in busy
  }

  ghost predicate Next(s: Pool, a: Act, s': Pool) {
    match a
    case Lock(p, batch, limit, busy) =>
      && p !in s.held
      && OldestBatch(s.table, Unlocked(s, busy), batch, limit)
      && s' == s.(held := s.held[p := batch])
    case Commit(p, now) =>
      && p in s.held
      && s' == Pool(OnTable(s.table, ClaimAll(s.held[p], p, now)), s.held - {p}, s.out + s.held[p])
    case Abort(p) =>
      && p in s.held
      && s' == s.(held := s.held - {p})
    case Other(id, ev) =>
      && !Locked(s, id) && id in s.table && !ev.Claimed?
      && var table := OnTable(s.table, One(None, id, ev));
         s' == Pool(table, s.held, if table[id].status == Queued then s.out - {id} else s.out)
    case Arrive(id, row) =>
      && id !in s.table && row.status == Queued
      && s' == s.(table := s.table[id := row])
  }

  ghost predicate Inv(s: Pool) {
    && (forall p, id :: p in s.held && id in s.held[p] ==> id in s.table && s.table[id].status == Queued)
    && (forall p, q :: p in s.held && q in s.held && p != q ==> s.held[p] !! s.held[q])
    && (forall id :: id in s.out ==> id in s.table && s.table[id].status != Queued)
  }

  lemma InvStep(s: Pool, a: Act, s': Pool)
    requires Inv(s) && Next(s, a, s')
    ensures Inv(s')
  {
    match a
    case Lock(p, batch, limit, busy) =>
      forall q | q in s.held
        ensures s.held[q] !! batch
      {
        forall id | id in batch
          ensures id !in s.held[q]
        {
          assert id in Unlocked(s, busy);
        }
      }
    case Commit(p, now) => CommitKeeps(s, p, now);
    case Abort(p) =>
    case Other(id, ev) => OtherKeeps(s, id, ev);
    case Arrive(id, row) =>
  }

  lemma CommitKeeps(s: Pool, p: string, now: int)
    requires Inv(s) && p in s.held
    ensures Inv(Pool(OnTable(s.table, ClaimAll(s.held[p], p, now)), s.held - {p}, s.out + s.held[p]))
  {
    hide Released;
    var table := OnTable(s.table, ClaimAll(s.held[p], p, now));
    assert forall id :: id in s.table ==>
      table[id].status == if id in s.held[p] then Running else s.table[id].status;
  }

  lemma OtherKeeps(s: Pool, id: string, ev: Event)
    requires Inv(s) && !Locked(s, id) && id in s.table
    ensures var table := OnTable(s.table, One(None, id, ev));
      Inv(Pool(table, s.held, if table[id].status == Queued then s.out - {id} else s.out))
  {
    hide Effect, Enabled;
    assert forall p :: p in s.held ==> id !in s.held[p];
    assert forall q :: q in s.table && q != id ==> OnTable(s.table, One(None, id, ev))[q] == s.table[q];
  }

  /** A run of the pool from an empty set of claims. */
  ghost predicate Trace(states: seq<Pool>, acts: seq<Act>) {
    && |states| == |acts| + 1
    && states[0].held == map[] && states[0].out == {}
    && forall i :: 0 <= i < |acts| ==> Next(states[i], acts[i], states[i + 1])
  }

  lemma {:induction false} InvAlways(states: seq<Pool>, acts: seq<Act>, i: nat)
    requires Trace(states, acts) && i < |states|
    ensures Inv(states[i])
  {
    if i > 0 {
      InvAlways(states, acts, i - 1);
      InvStep(states[i - 1], acts[i - 1], states[i]);
    }
  }

  /** A commit moves each job of its batch from queued to running, charges it exactly one attempt and
      stamps it with its poller; every other row is as before; no concurrent claim holds any of them. */
  lemma CommitTakesItsBatch(states: seq<Pool>, acts: seq<Act>, i: nat)
    requires Trace(states, acts) && i < |acts| && acts[i].Commit?
    ensures var p, s, s' := acts[i].poller, states[i], states[i + 1];
      && s'.table.Keys == s.table.Keys
      && (forall id :: id in s.held[p] ==>
            && id in s.table && s.table[id].status == Queued && id !in s.out
            && s'.table[id] == s.table[id].(status := Running, attempts := s.table[id].attempts + 1,
                                            lockedAt := Some(acts[i].now), lockedBy := Some(p)))
      && (forall id :: id in s.table && id !in s.held[p] ==> s'.table[id] == s.table[id])
      && (forall q :: q in s.held && q != p ==> s.held[q] !! s.held[p])
  {
    InvAlways(states, acts, i);
  }

  /** At the moment a batch is locked, each of its jobs is at least as old as every job
      that was queued, unlocked and left behind; and the batch is as large as it may be. */
  lemma OldestFirst(states: seq<Pool>, acts: seq<Act>, i: nat, c: string, q: string)
    requires Trace(states, acts) && i < |acts| && acts[i].Lock?
    requires c in acts[i].batch
    requires q in QueuedIds(states[i].table) && !Locked(states[i], q) && q !in acts[i].busy && q !in acts[i].batch
    ensures c in states[i].table && states[i].table[c].createdAt <= states[i].table[q].createdAt
    ensures |acts[i].batch| == acts[i].limit
  {
    var avail := Unlocked(states[i], acts[i].busy);
    assert q in avail && Next(states[i], acts[i], states[i + 1]);
    assert acts[i].batch + {q} <= avail;
    SubsetSize(acts[i].batch + {q}, avail);
  }

  /** Two committed batches share a job only if it went back to the queue between them. */
  lemma {:induction false} SharedOnlyAfterRequeue(states: seq<Pool>, acts: seq<Act>, i: nat, j: nat, id: string)
    returns (k: nat)
    requires Trace(states, acts) && i < j < |acts| && acts[i].Commit? && acts[j].Commit?
    requires acts[i].poller in states[i].held && id in states[i].held[acts[i].poller]
    requires acts[j].poller in states[j].held && id in states[j].held[acts[j].poller]
    ensures i < k < j && acts[k].Other? && acts[k].id == id
    ensures id in states[k].table && id in states[k + 1].table
    ensures states[k].table[id].status != Queued && states[k + 1].table[id].status == Queued
  {
    assert Next(states[i], acts[i], states[i + 1]);
    CommitTakesItsBatch(states, acts, j);
    k := i + 1;
    while id in states[k + 1].out
      invariant i < k < j
      invariant id in states[k].out
      decreases j - k
    {
      if k + 1 == j {
        assert false;
      }
      k := k + 1;
    }
    assert Next(states[k], acts[k], states[k + 1]);
    InvAlways(states, acts, k);
  }

  // ---- Draining ----

  /** Successive claims of at most `limit` jobs each, with nothing else happening. */
  ghost predicate Claims(tables: seq<Table>, batches: seq<set<string>>, limit: nat, owner: string, now: int) {
    && |tables| == |batches| + 1
    && forall i :: 0 <= i < |batches| ==>
      && OldestBatch(tables[i], QueuedIds(tables[i]), batches[i], limit)
      && tables[i + 1] == OnTable(tables[i], ClaimAll(batches[i], owner, now))
  }

  /** A fixed backlog shrinks by exactly `limit` per claim until it is gone. */
  lemma {:induction false} Drains(
      tables: seq<Table>, batches: seq<set<string>>, limit: nat, owner: string, now: int, n: nat)
    requires Claims(tables, batches, limit, owner, now) && n < |tables|
    ensures |QueuedIds(tables[n])| == Max(0, |QueuedIds(tables[0])| - n * limit)
  {
    if n > 0 {
      Drains(tables, batches, limit, owner, now, n - 1);
      ClaimShrinks(tables[n - 1], batches[n - 1], limit, owner, now);
      assert n * limit == (n - 1) * limit + limit;
    }
  }

  lemma ClaimShrinks(t: Table, batch: set<string>, limit: nat, owner: string, now: int)
    requires OldestBatch(t, QueuedIds(t), batch, limit)
    ensures |QueuedIds(OnTable(t, ClaimAll(batch, owner, now)))| == Max(0, |QueuedIds(t)| - limit)
  {
    var left := QueuedIds(t) - batch;
    assert QueuedIds(OnTable(t, ClaimAll(batch, owner, now))) == left;
    assert QueuedIds(t) == left + batch && |left + batch| == |left| + |batch|;
  }
}
