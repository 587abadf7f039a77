/** Claim lease against heartbeat: when exactly no reaper can take a job from a live run. */
module Lease {
  import opened Base
  import opened JobRows
  import opened JobStore

  /** One renewal attempt: how long after the previous one (the first: after the run began) it is made,
      and whether its write gets through. */
  datatype Beat = Beat(gap: nat, ok: bool)

  function TimeOf(start: int, beats: seq<Beat>): int {
    if beats == [] then start else TimeOf(start, beats[..|beats| - 1]) + beats[|beats| - 1].gap
  }

  /** The row after the attempts of a run that began at `start`. */
  function RowAfter(r: Row, start: int, beats: seq<Beat>): Row {
    if beats == [] then r else
    var before := RowAfter(r, start, beats[..|beats| - 1]);
    if beats[|beats| - 1].ok then Fire(before, Renewed(TimeOf(start, beats))) else before
  }

  /** How many attempts in a row have failed so far. */
  function MissedInARow(beats: seq<Beat>): nat {
    if beats == [] || beats[|beats| - 1].ok then 0 else MissedInARow(beats[..|beats| - 1]) + 1
  }

  /** A job claimed at `claimed` by a run that began at most d later, beats at least every g ticks, never misses
      more than k attempts in a row, and is still active at time t. */
  ghost predicate ActiveRun(r: Row, claimed: int, start: int, beats: seq<Beat>, t: int, d: nat, g: nat, k: nat) {
    && r.status == Running && r.lockedAt == Some(claimed)
    && claimed <= start <= claimed + d
    && (forall i :: 0 <= i < |beats| ==> beats[i].gap <= g)
    && (forall i {:trigger beats[..i]} :: 0 <= i <= |beats| ==> MissedInARow(beats[..i]) <= k)
    && TimeOf(start, beats) <= t <= TimeOf(start, beats) + g
  }

  /** No reaper takes the job at any moment of any such run, on any pod whose clock is at most e ahead of the one that
      stamps the lease. */
  ghost predicate Safe(lease: int, d: nat, g: nat, k: nat, e: nat) {
    forall r: Row, claimed: int, start: int, beats: seq<Beat>, t: int, cutoff: int ::
      ActiveRun(r, claimed, start, beats, t, d, g, k) && cutoff <= t + e - lease ==>
        !Expired(RowAfter(r, start, beats), cutoff)
  }

  /** The stamp is never older than the failed attempts since, plus the late start if none got through yet. */
  lemma {:induction false} StampAge(r: Row, claimed: int, start: int, beats: seq<Beat>, d: nat, g: nat)
    requires r.status == Running && r.lockedAt == Some(claimed) && claimed <= start <= claimed + d
    requires forall i :: 0 <= i < |beats| ==> beats[i].gap <= g
    ensures var r' := RowAfter(r, start, beats);
      && r'.status == Running && r'.lockedAt.Some?
      && TimeOf(start, beats) - r'.lockedAt.value <= d + MissedInARow(beats) * g
  {
    if beats != [] {
      var before := beats[..|beats| - 1];
      StampAge(r, claimed, start, before, d, g);
      assert (MissedInARow(before) + 1) * g == MissedInARow(before) * g + g;
      assert MissedInARow(beats) * g >= 0;
    }
  }

  /** Misses up to the last attempt, one more gap after it, the late start and the skew all fit into the lease. */
  lemma GapsFit(lease: int, d: nat, g: nat, k: nat, e: nat, missed: nat)
    requires missed <= k && d + (k + 1) * g + e <= lease
    ensures d + missed * g + g + e <= lease
  {
    MulMonotone(missed + 1, k + 1, g);
    assert (missed + 1) * g == missed * g + g;
  }

  lemma NotExpired(
    lease: int, r: Row, claimed: int, start: int, beats: seq<Beat>, t: int, cutoff: int, d: nat, g: nat, k: nat, e: nat)
    requires d + (k + 1) * g + e <= lease && ActiveRun(r, claimed, start, beats, t, d, g, k) && cutoff <= t + e - lease
    ensures !Expired(RowAfter(r, start, beats), cutoff)
  {
    hide RowAfter, TimeOf, MissedInARow;
    StampAge(r, claimed, start, beats, d, g);
    assert beats[..|beats|] == beats;
    var missed := MissedInARow(beats);
    assert missed <= k;
    hide ActiveRun;
    GapsFit(lease, d, g, k, e, missed);
  }

  lemma SafeIfWithin(lease: int, d: nat, g: nat, k: nat, e: nat)
    requires d + (k + 1) * g + e <= lease
    ensures Safe(lease, d, g, k, e)
  {
    hide ActiveRun, Expired, RowAfter;
    forall r: Row, claimed: int, start: int, beats: seq<Beat>, t: int, cutoff: int
      | ActiveRun(r, claimed, start, beats, t, d, g, k) && cutoff <= t + e - lease
      ensures !Expired(RowAfter(r, start, beats), cutoff)
    {
      NotExpired(lease, r, claimed, start, beats, t, cutoff, d, g, k, e);
    }
  }

  /** n attempts g apart, all failing. */
  function Silence(g: nat, n: nat): seq<Beat> { seq(n, i => Beat(g, false)) }

  lemma {:induction false} SilenceKeepsStamp(r: Row, start: int, g: nat, n: nat)
    ensures RowAfter(r, start, Silence(g, n)) == r
    ensures TimeOf(start, Silence(g, n)) == start + n * g
    ensures MissedInARow(Silence(g, n)) == n
  {
    if n > 0 {
      SilenceKeepsStamp(r, start, g, n - 1);
      assert Silence(g, n)[..n - 1] == Silence(g, n - 1);
      assert (n - 1) * g + g == n * g;
    }
  }

  lemma UnsafeBeyond(lease: int, d: nat, g: nat, k: nat, e: nat)
    requires lease < d + (k + 1) * g + e
    ensures !Safe(lease, d, g, k, e)
  {
    var r := Fresh("", "", 1, 0, 0).(status := Running, lockedAt := Some(0));
    var beats := Silence(g, k);
    SilenceKeepsStamp(r, d, g, k);
    forall i | 0 <= i <= |beats|
      ensures MissedInARow(beats[..i]) <= k
    {
      assert beats[..i] == Silence(g, i);
      SilenceKeepsStamp(r, d, g, i);
    }
    var t := d + k * g + g;
    assert (k + 1) * g == k * g + g;
    assert ActiveRun(r, 0, d, beats, t, d, g, k);
    assert Expired(RowAfter(r, d, beats), t + e - lease);
  }

  /** Exactly when the lease is safe: it covers the late start, k+1 heartbeat intervals and the skew. */
  lemma LeaseSafeIff(lease: int, d: nat, g: nat, k: nat, e: nat)
    ensures Safe(lease, d, g, k, e) <==> d + (k + 1) * g + e <= lease
  {
    if d + (k + 1) * g + e <= lease {
      SafeIfWithin(lease, d, g, k, e);
    } else {
      UnsafeBeyond(lease, d, g, k, e);
    }
    hide Safe;
  }

  /** As deployed, the heartbeat sleeps a third of the lease and then writes, which takes up to w more. Two missed
      renewals in a row are survived only by a run that starts with its claim, writes in no time and meets no fast
      clock (and then only because the reap test is strict); one is, as long as the delays leave a third of the lease;
      three never are. */
  lemma ThirdOfTheLease(g: nat, d: nat, w: nat, e: nat)
    requires g > 0
    ensures Safe(3 * g, d, g + w, 2, e) <==> d == w == e == 0
    ensures Safe(3 * g, d, g + w, 1, e) <==> d + 2 * w + e <= g
    ensures !Safe(3 * g, d, g + w, 3, e)
  {
    hide Safe;
    LeaseSafeIff(3 * g, d, g + w, 1, e);
    LeaseSafeIff(3 * g, d, g + w, 2, e);
    LeaseSafeIff(3 * g, d, g + w, 3, e);
  }

  // ---- From the claim on ----

  /** A claim starts the lease: at that moment the run is active, and no reap with an earlier cutoff takes the job. */
  lemma ClaimStartsTheLease(t: Table, batch: set<string>, owner: string, now: int, id: string, cutoff: int)
    requires id in t && id in batch && t[id].status == Queued && cutoff <= now
    ensures var claimed := OnTable(t, ClaimAll(batch, owner, now));
      && claimed[id].status == Running && claimed[id].lockedAt == Some(now) && claimed[id].lockedBy == Some(owner)
      && ActiveRun(claimed[id], now, now, [], now, 0, 0, 0)
      && OnTable(claimed, ReapAll(cutoff))[id] == claimed[id]
  {
  }

  /** A claimed job is never reaped while its run is active, on whichever pod, if the lease covers the late start, the
      misses and the skew. */
  lemma ClaimedRunIsSafe(
    t: Table, batch: set<string>, owner: string, now: int, id: string, lease: int, start: int, beats: seq<Beat>,
    time: int, cutoff: int, d: nat, g: nat, k: nat, e: nat)
    requires id in t && id in batch && t[id].status == Queued && d + (k + 1) * g + e <= lease
    requires now <= start <= now + d && TimeOf(start, beats) <= time <= TimeOf(start, beats) + g
    requires forall i :: 0 <= i < |beats| ==> beats[i].gap <= g
    requires forall i {:trigger beats[..i]} :: 0 <= i <= |beats| ==> MissedInARow(beats[..i]) <= k
    requires cutoff <= time + e - lease
    ensures var r := OnTable(t, ClaimAll(batch, owner, now))[id]; !Expired(RowAfter(r, start, beats), cutoff)
  {
    var r := OnTable(t, ClaimAll(batch, owner, now))[id];
    assert ActiveRun(r, now, start, beats, time, d, g, k);
    hide OnTable, ActiveRun, RowAfter, Expired;
    NotExpired(lease, r, now, start, beats, time, cutoff, d, g, k, e);
  }
}
