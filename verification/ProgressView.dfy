/** How far a job has come, as callers see it: the ordered step list and the percentage. */
module ProgressView {
  import opened Base
  import opened Decimal
  import opened JobRows
  import opened JobStore
  import opened CheckpointMachine
  import opened Checkpoints

  // ---- The step list ----

  datatype JobStep = JobStep(index: nat, prompt: string, output: string, finishReason: string, agent: string)

  ghost predicate Numeric(keys: seq<string>) { forall i :: 0 <= i < |keys| ==> AllDigits(keys[i]) }

  function Insert(key: string, keys: seq<string>): (out: seq<string>)
    requires AllDigits(key) && Numeric(keys)
    ensures Numeric(out) && multiset(out) == multiset(keys) + multiset{key}
  {
    if keys == [] || Int(key) <= Int(keys[0]) then [key] + keys
    else
      assert keys == [keys[0]] + keys[1..];
      [keys[0]] + Insert(key, keys[1..])
  }

  /** sorted(..., key=int) over the map's keys in whatever order it yields them. */
  function SortByInt(keys: seq<string>): (out: seq<string>)
    requires Numeric(keys)
    ensures Numeric(out) && multiset(out) == multiset(keys)
  {
    if keys == [] then [] else
    assert keys == [keys[0]] + keys[1..];
    Insert(keys[0], SortByInt(keys[1..]))
  }

  ghost predicate Ascending(keys: seq<string>)
    requires Numeric(keys)
  {
    forall i, j :: 0 <= i < j < |keys| ==> Int(keys[i]) <= Int(keys[j])
  }

  lemma {:induction false} InsertAscends(key: string, keys: seq<string>)
    requires AllDigits(key) && Numeric(keys) && Ascending(keys)
    ensures Ascending(Insert(key, keys))
  {
    hide Int;
    if keys != [] && !(Int(key) <= Int(keys[0])) {
      InsertAscends(key, keys[1..]);
      var out := Insert(key, keys[1..]);
      forall j | 0 <= j < |out|
        ensures Int(keys[0]) <= Int(out[j])
      {
        assert out[j] in multiset(out);
        assert out[j] == key || out[j] in keys[1..];
      }
    }
  }

  lemma {:induction false} SortAscends(keys: seq<string>)
    requires Numeric(keys)
    ensures Ascending(SortByInt(keys))
  {
    if keys != [] {
      SortAscends(keys[1..]);
      InsertAscends(keys[0], SortByInt(keys[1..]));
    }
  }

  function View(steps: map<string, StepRecord>, order: seq<string>): seq<JobStep>
    requires Numeric(order) && forall i :: 0 <= i < |order| ==> order[i] in steps
  {
    var keys := SortByInt(order);
    assert forall i :: 0 <= i < |keys| ==> keys[i] in multiset(keys);
    seq(|keys|, i requires 0 <= i < |keys| =>
      JobStep(Int(keys[i]), steps[keys[i]].prompt, steps[keys[i]].output, steps[keys[i]].finishReason,
        steps[keys[i]].agent))
  }

  /** `order` lists the keys of the map, each once. */
  ghost predicate Enumerates(order: seq<string>, keys: set<string>) {
    multiset(order) == multiset(keys)
  }

  /** Ascending, all different, all among 0..k-1 and k of them: the i-th is i. */
  lemma {:induction false} RanksAre(ints: seq<nat>, k: nat, i: nat)
    requires |ints| == k && i < k
    requires forall a, b :: 0 <= a < b < k ==> ints[a] < ints[b]
    requires forall a :: 0 <= a < k ==> ints[a] < k
    ensures ints[i] == i
  {
    AtLeast(ints, i);
    AtMost(ints, k, i);
  }

  lemma {:induction false} AtLeast(ints: seq<nat>, i: nat)
    requires i < |ints| && forall a, b :: 0 <= a < b < |ints| ==> ints[a] < ints[b]
    ensures ints[i] >= i
  {
    if i > 0 {
      AtLeast(ints, i - 1);
    }
  }

  lemma {:induction false} AtMost(ints: seq<nat>, k: nat, i: nat)
    requires |ints| == k && i < k && (forall a, b :: 0 <= a < b < k ==> ints[a] < ints[b])
    requires forall a :: 0 <= a < k ==> ints[a] < k
    ensures ints[i] <= i
    decreases k - i
  {
    if i < k - 1 {
      AtMost(ints, k, i + 1);
    }
  }

  lemma EnumeratedKeys(order: seq<string>, k: nat)
    requires Enumerates(order, Keys(k))
    ensures |order| == k && Numeric(order)
    ensures forall key :: key in order <==> key in Keys(k)
  {
    KeysSize(k);
    assert |order| == |multiset(order)|;
    forall key
      ensures key in order <==> key in Keys(k)
    {
      assert key in order <==> key in multiset(order);
    }
    forall i | 0 <= i < |order|
      ensures AllDigits(order[i])
    {
      assert order[i] in Keys(k);
      var j :| 0 <= j < k && order[i] == Str(j);
    }
    hide Str;
  }

  /** The string keys "0".."k-1", in any order and for any k, come out as "0", "1", ..., "k-1" ("10" after "9"). */
  lemma SortedKeys(order: seq<string>, k: nat, i: nat)
    requires Enumerates(order, Keys(k)) && Numeric(order) && i < k
    ensures |SortByInt(order)| == k && SortByInt(order)[i] == Str(i)
  {
    hide Str, Int, Keys, SortByInt;
    EnumeratedKeys(order, k);
    var keys := SortByInt(order);
    SortAscends(order);
    assert |keys| == |multiset(keys)| == k;
    var ints := seq(k, a requires 0 <= a < k => Int(keys[a]));
    forall a | 0 <= a < k
      ensures ints[a] < k && keys[a] == Str(ints[a])
    {
      KeyOfInt(keys, k, a);
    }
    forall a, b | 0 <= a < b < k
      ensures ints[a] < ints[b]
    {
      assert ints[a] == Int(keys[a]) <= Int(keys[b]) == ints[b];
      NeverTwice(keys, Keys(k), a, b);
    }
    RanksAre(ints, k, i);
  }

  lemma KeyOfInt(keys: seq<string>, k: nat, a: nat)
    requires multiset(keys) == multiset(Keys(k)) && a < |keys| && Numeric(keys)
    ensures Int(keys[a]) < k && keys[a] == Str(Int(keys[a]))
  {
    assert keys[a] in multiset(keys);
    var j :| 0 <= j < k && keys[a] == Str(j);
    IntStr(j);
    hide Str, Int;
  }

  lemma NeverTwice(s: seq<string>, elements: set<string>, a: nat, b: nat)
    requires multiset(s) == multiset(elements) && a < b < |s|
    ensures s[a] != s[b]
  {
    assert s == s[..a] + [s[a]] + s[a + 1..b] + [s[b]] + s[b + 1..];
    assert multiset(s)[s[a]] <= 1;
  }

  /** In every reachable state the step map reads back as exactly steps 0..k-1, in numeric order and with their
      plan items, however the map is enumerated. */
  lemma ViewIsOrdered(parse: string -> seq<string>, r: Row, moves: seq<Move>, order: seq<string>, i: nat)
    requires IsFresh(r)
    requires var p := Stored(Run(parse, Boot(r), moves)); Enumerates(order, p.steps.Keys) && i < |p.steps|
    ensures var p := Stored(Run(parse, Boot(r), moves));
      && Numeric(order) && (forall j :: 0 <= j < |order| ==> order[j] in p.steps)
      && |View(p.steps, order)| == |p.steps| <= |p.plan|
      && Str(i) in p.steps
      && View(p.steps, order)[i]
        == JobStep(i, p.plan[i], p.steps[Str(i)].output, p.steps[Str(i)].finishReason, p.steps[Str(i)].agent)
  {
    var p := Stored(Run(parse, Boot(r), moves));
    CheckpointAlways(parse, r, moves);
    assert Good(p);
    hide Str, Keys, Int, Checkpointing, InStep, Run, SortByInt;
    EnumeratedKeys(order, |p.steps|);
    forall j | 0 <= j < |order|
      ensures order[j] in p.steps
    {
      assert order[j] in order;
    }
    SortedKeys(order, |p.steps|, i);
    IntStr(i);
  }

  // ---- The percentage ----

  datatype TaskStatus = PendingTask | RunningTask | WaitingTask | CompletedTask | FailedTask

  function TaskStatusOf(s: Status): TaskStatus {
    match s
    case Queued => PendingTask
    case Running => RunningTask
    case WaitingApproval => WaitingTask
    case Succeeded => CompletedTask
    case Failed => FailedTask
    case Dead => FailedTask
    case Cancelled => FailedTask
  }

  /** Rounding to tenths of a percent: any monotone rounding that keeps the two ends. */
  ghost predicate Rounding(round: real -> int) {
    && (forall x: real, y: real {:trigger round(x), round(y)} :: x <= y ==> round(x) <= round(y))
    && round(0.0) == 0 && round(1000.0) == 1000
  }

  /** In tenths of a percent. */
  function PercentComplete(round: real -> int, status: TaskStatus, completed: nat, total: nat): int {
    if status == CompletedTask then 1000
    else if total == 0 then 0
    else
      var fraction := completed as real / total as real;
      round((if fraction < 1.0 then fraction else 1.0) * 1000.0)
  }

  function PercentOf(round: real -> int, r: Row): int {
    var completed := |r.progress.steps|;
    PercentComplete(round, TaskStatusOf(r.status), completed, Max(|r.progress.plan|, completed))
  }

  lemma FractionGrows(a: nat, b: nat, n: nat)
    requires a <= b <= n && n > 0
    ensures 0.0 <= a as real / n as real <= b as real / n as real <= 1.0
  {
    var x, y, d := a as real / n as real, b as real / n as real, n as real;
    assert x * d == a as real && y * d == b as real && d > 0.0;
    assert (y - x) * d >= 0.0;
    assert (1.0 - y) * d >= 0.0;
  }

  lemma PercentInRange(round: real -> int, r: Row)
    requires Rounding(round)
    ensures 0 <= PercentOf(round, r) <= 1000
  {
    var k := |r.progress.steps|;
    var n := Max(|r.progress.plan|, k);
    if n > 0 {
      FractionGrows(k, k, n);
      assert round(0.0) <= round(1000.0);
    }
  }

  lemma PercentGrows(round: real -> int, r: Row, r': Row)
    requires Rounding(round) && Good(r.progress) && Good(r'.progress) && Extends(r.progress, r'.progress)
    requires r.status == Succeeded ==> r'.status == Succeeded
    ensures PercentOf(round, r) <= PercentOf(round, r')
  {
    hide Str, Keys;
    PercentInRange(round, r);
    PercentInRange(round, r');
    var k, k', n := |r.progress.steps|, |r'.progress.steps|, |r.progress.plan|;
    if n > 0 && r.status != Succeeded && r'.status != Succeeded {
      FractionGrows(k, k', n);
    }
  }

  lemma {:induction false} SucceededStays(parse: string -> seq<string>, s: Sys, later: seq<Move>)
    requires Row0(s).status == Succeeded
    ensures Row0(Run(parse, s, later)).status == Succeeded
  {
    if later != [] {
      var before := later[..|later| - 1];
      SucceededStays(parse, s, before);
      var ev := JobMoves(parse, Run(parse, s, before), later[|later| - 1]);
      hide After;
    }
  }

  /** Over a job's whole life, through every failure, retry, pause and crash, the percentage stays within 0..100
      and never goes down. */
  lemma PercentNeverDrops(parse: string -> seq<string>, round: real -> int, r: Row, moves: seq<Move>, later: seq<Move>)
    requires IsFresh(r) && Rounding(round)
    ensures var now, then_ := Row0(Run(parse, Boot(r), moves)), Row0(Run(parse, Boot(r), moves + later));
      0 <= PercentOf(round, now) <= PercentOf(round, then_) <= 1000
  {
    CheckpointAlways(parse, r, moves);
    CheckpointAlways(parse, r, moves + later);
    CheckpointOnlyGrows(parse, r, moves, later);
    RunAppend(parse, Boot(r), moves, later);
    var s, s' := Run(parse, Boot(r), moves), Run(parse, Boot(r), moves + later);
    if Row0(s).status == Succeeded {
      SucceededStays(parse, s, later);
    }
    assert Good(Stored(s)) && Good(Stored(s'));
    assert |Stored(s).steps| <= |Stored(s).plan| && |Stored(s').steps| <= |Stored(s').plan|;
    hide Good, Extends, Checkpointing, InStep, Run, PercentOf;
    PercentInRange(round, Row0(s));
    PercentInRange(round, Row0(s'));
    PercentGrows(round, Row0(s), Row0(s'));
  }

  /** What is shown in every reachable state: 100 once the job has succeeded, nothing without a plan, and otherwise the
      rounded share of the plan's steps that are recorded. */
  lemma PercentIs(parse: string -> seq<string>, round: real -> int, r: Row, moves: seq<Move>)
    requires IsFresh(r) && Rounding(round)
    ensures var row := Row0(Run(parse, Boot(r), moves));
      var k, n := |row.progress.steps|, |row.progress.plan|;
      && k <= n
      && PercentOf(round, row) == if row.status == Succeeded then 1000
                                  else if n == 0 then 0
                                  else round(k as real / n as real * 1000.0)
  {
    var row := Row0(Run(parse, Boot(r), moves));
    RecordsWithinPlan(parse, r, moves);
    hide Run;
    var k, n := |row.progress.steps|, |row.progress.plan|;
    if n > 0 {
      FractionGrows(k, n, n);
    }
  }

  /** To the nearest tenth, ties either way. */
  ghost predicate Nearest(round: real -> int) {
    Rounding(round) && forall x: real {:trigger round(x)} :: -0.5 <= round(x) as real - x <= 0.5
  }

  /** Every further step shows, as long as the plan has fewer than a thousand. */
  lemma EveryStepShows(round: real -> int, r: Row, r': Row)
    requires Nearest(round) && r.status != Succeeded && r'.status != Succeeded
    requires |r.progress.plan| == |r'.progress.plan| < 1000
    requires |r.progress.steps| < |r'.progress.steps| <= |r.progress.plan|
    ensures PercentOf(round, r) < PercentOf(round, r')
  {
    var k, k', n := |r.progress.steps|, |r'.progress.steps|, |r.progress.plan|;
    FractionGrows(k, k', n);
    FractionsApart(k, k', n);
    var x, y := k as real / n as real * 1000.0, k' as real / n as real * 1000.0;
    assert round(x) as real <= x + 0.5 && y - 0.5 <= round(y) as real;
    FractionGrows(k', n, n);
  }

  lemma FractionsApart(k: nat, k': nat, n: nat)
    requires k < k' && 0 < n < 1000
    ensures k' as real / n as real * 1000.0 - k as real / n as real * 1000.0 > 1.0
  {
    var x, y, d := k as real / n as real, k' as real / n as real, n as real;
    assert x * d == k as real && y * d == k' as real;
    assert (y - x) * d == y * d - x * d;
    ShareIsLarge(y - x, d);
  }

  lemma ShareIsLarge(u: real, d: real)
    requires u * d >= 1.0 && 0.0 < d <= 999.0
    ensures u * 1000.0 > 1.0
  {
    assert u > 0.0;
    assert u * (999.0 - d) >= 0.0;
  }
}
