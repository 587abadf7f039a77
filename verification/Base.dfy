/** Result types shared by the models of the platform's services. */
module Base {
  datatype Option<+T> = None | Some(value: T) {
    predicate IsFailure() { None? }

    function PropagateFailure<U>(): Option<U>
      requires None?
    {
      None
    }

    function Extract(): T
      requires Some?
    {
      value
    }
  }

  /** The typed errors a service call can surface instead of a row. */
  datatype Error = NotFound | BadState(current: string) | Invalid(message: string)

  datatype Result<+T> = Ok(value: T) | Err(error: Error)

  function Min(a: int, b: int): int { if a < b then a else b }

  function Max(a: int, b: int): int { if a < b then b else a }

  ghost predicate Distinct<T>(s: seq<T>) { forall i, j :: 0 <= i < j < |s| ==> s[i] != s[j] }

  function Elements<T>(s: seq<T>): set<T> { set x | x in s }

  lemma {:induction false} SubsetSize<T>(a: set<T>, b: set<T>)
    requires a <= b
    ensures |a| <= |b|
  {
    assert b == a + (b - a);
  }

  lemma MulMonotone(a: nat, b: nat, c: nat)
    requires a <= b
    ensures a * c <= b * c
  {
    assert (b - a) * c >= 0;
  }

  lemma {:induction false} DistinctSize<T>(s: seq<T>)
    requires Distinct(s)
    ensures |Elements(s)| == |s|
  {
    if s == [] {
      assert Elements(s) == {};
    } else {
      var front, last := s[..|s| - 1], s[|s| - 1];
      DistinctSize(front);
      assert Elements(s) == Elements(front) + {last};
      assert last !in front;
    }
  }

  /** `out` is what `make` makes of the elements of `s` that `keep` accepts, in order: the k-th comes from place
      at[k]. */
  ghost predicate Picked<T(!new), U(!new)>(s: seq<T>, keep: T -> bool, make: T -> U, out: seq<U>, at: seq<nat>) {
    && |at| == |out|
    && (forall j, k :: 0 <= j < k < |at| ==> at[j] < at[k])
    && (forall k :: 0 <= k < |at| ==> at[k] < |s| && keep(s[at[k]]) && out[k] == make(s[at[k]]))
    && (forall i :: 0 <= i < |s| && keep(s[i]) ==> i in at)
  }

  function Shifted(at: seq<nat>): (r: seq<nat>)
    ensures |r| == |at| && forall k :: 0 <= k < |at| ==> r[k] == at[k] + 1
  {
    seq(|at|, k requires 0 <= k < |at| => at[k] + 1)
  }

  /** One more element at the front, if it is not kept. */
  lemma PickedSkip<T(!new), U(!new)>(s: seq<T>, keep: T -> bool, make: T -> U, out: seq<U>, at: seq<nat>)
    requires s != [] && !keep(s[0]) && Picked(s[1..], keep, make, out, at)
    ensures Picked(s, keep, make, out, Shifted(at))
  {
    var places := Shifted(at);
    forall k | 0 <= k < |at|
      ensures places[k] < |s| && keep(s[places[k]]) && out[k] == make(s[places[k]])
    {
      assert s[1..][at[k]] == s[places[k]];
    }
    forall i | 0 <= i < |s| && keep(s[i])
      ensures i in places
    {
      assert s[i] == s[1..][i - 1];
      var k :| 0 <= k < |at| && at[k] == i - 1;
      assert places[k] == i;
    }
  }

  function Prepended(at: seq<nat>): (r: seq<nat>)
    ensures |r| == |at| + 1 && r[0] == 0 && forall k :: 0 < k < |r| ==> r[k] == at[k - 1] + 1
  {
    [0] + Shifted(at)
  }

  /** And if it is. */
  lemma PickedTake<T(!new), U(!new)>(s: seq<T>, keep: T -> bool, make: T -> U, out: seq<U>, at: seq<nat>)
    requires s != [] && keep(s[0]) && Picked(s[1..], keep, make, out, at)
    ensures Picked(s, keep, make, [make(s[0])] + out, Prepended(at))
  {
    var all, places := [make(s[0])] + out, Prepended(at);
    hide Prepended;
    forall k | 0 <= k < |places|
      ensures places[k] < |s| && keep(s[places[k]]) && all[k] == make(s[places[k]])
    {
      if k > 0 {
        assert s[1..][at[k - 1]] == s[places[k]] && all[k] == out[k - 1];
      }
    }
    forall i | 0 <= i < |s| && keep(s[i])
      ensures i in places
    {
      if i > 0 {
        assert s[i] == s[1..][i - 1];
        PlaceOf(at, i - 1);
      } else {
        assert places[0] == 0;
      }
    }
  }

  lemma PlaceOf(at: seq<nat>, i: nat)
    requires i in at
    ensures i + 1 in Prepended(at)
  {
    var k :| 0 <= k < |at| && at[k] == i;
    assert Prepended(at)[k + 1] == i + 1;
  }
}
