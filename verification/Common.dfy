/** Datatypes shared by every component, and sums over sequences. */
module Common {

  datatype Option<+T> = None | Some(value: T)

  datatype Result<+T, +E> = Ok(value: T) | Err(error: E)

  /** A point in time, or a duration, in microseconds. */
  type Time = int

  type JobId = nat
  type RunId = nat

  /** Executions are stored one row per attempt of a run. */
  datatype Attempt = Attempt(run: RunId, number: nat) {
    function Next(): Attempt { Attempt(run, number + 1) }
  }

  function Sum(s: seq<nat>): nat {
    if s == [] then 0 else s[0] + Sum(s[1..])
  }

  lemma {:induction false} SumAppend(s: seq<nat>, x: nat)
    ensures Sum(s + [x]) == Sum(s) + x
  {
    if s == [] {
      assert [] + [x] == [x];
    } else {
      SumAppend(s[1..], x);
      assert (s + [x])[1..] == s[1..] + [x];
    }
  }

  lemma {:induction false} SumMonotone(s: seq<nat>, t: seq<nat>)
    requires |s| == |t|
    requires forall i :: 0 <= i < |s| ==> s[i] <= t[i]
    ensures Sum(s) <= Sum(t)
  {
    if s != [] {
      SumMonotone(s[1..], t[1..]);
    }
  }

  /** Everywhere but at `k` no larger: the sums differ by at most what the entries at `k` differ by. */
  lemma {:induction false} SumAllBut(s: seq<nat>, t: seq<nat>, k: nat)
    requires |s| == |t| && k < |s|
    requires forall i :: 0 <= i < |s| && i != k ==> s[i] <= t[i]
    ensures Sum(s) + t[k] <= Sum(t) + s[k]
  {
    if k == 0 {
      SumMonotone(s[1..], t[1..]);
    } else {
      SumAllBut(s[1..], t[1..], k - 1);
    }
  }

  lemma {:induction false} SumZero(s: seq<nat>)
    requires forall i :: 0 <= i < |s| ==> s[i] == 0
    ensures Sum(s) == 0
  {
    if s != [] {
      SumZero(s[1..]);
    }
  }

  lemma {:induction false} SumBounds(s: seq<nat>, k: nat)
    requires k < |s|
    ensures s[k] <= Sum(s)
  {
    if k != 0 {
      SumBounds(s[1..], k - 1);
    }
  }

  /** The sum of the first `n` values. */
  ghost function Total(f: nat -> real, n: nat): real { if n == 0 then 0.0 else Total(f, n - 1) + f(n - 1) }
}
