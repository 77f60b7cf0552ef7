/** Recovery after a crash: what is left half-done is marked, and slots nobody ran are freed. */
module Recovery {
  import opened Common
  import opened StateMachine
  import opened Repositories

  const INTERRUPTED := "interrupted: process exited while RUNNING"

  /** What recovery makes of one row, given the table it found. */
  function RecoveredRow(t: Table, a: Attempt, at: Time): Execution
    requires a in t
  {
    if t[a].status.Running? then
      t[a].(status := Recoverable, finishedAt := Some(at),
            error := if t[a].error.Some? && t[a].error.value != "" then t[a].error else Some(INTERRUPTED))
    else if IsDangling(t, a) then t[a].(status := Recoverable)
    else t[a]
  }

  function RecoveredRows(t: Table, at: Time): Table {
    map a | a in t :: RecoveredRow(t, a, at)
  }

  /** The keys recovery keeps: those whose run stored at least one execution. */
  function LiveKeys<K(==)>(keys: map<K, RunId>, t: Table): map<K, RunId> {
    map k | k in keys && HasRun(t, keys[k]) :: keys[k]
  }

  // ---------------- complete, minimal, idempotent ----------------

  ghost predicate NothingToRecover<K>(t: Table, keys: map<K, RunId>) {
    && (forall a :: a in t ==> !t[a].status.Running? && !IsDangling(t, a))
    && (forall k :: k in keys ==> HasRun(t, keys[k]))
  }

  lemma {:induction false} SupersededAlike(t: Table, u: Table, a: Attempt)
    requires t.Keys == u.Keys
    ensures IsSuperseded(t, a) <==> IsSuperseded(u, a)
  {
  }

  lemma {:induction false} RunsAlike(t: Table, u: Table, r: RunId)
    requires t.Keys == u.Keys
    ensures HasRun(t, r) <==> HasRun(u, r)
  {
  }

  /** Afterwards no row is RUNNING, no retry dangles, and every key has an execution. */
  lemma {:induction false} RecoveryIsComplete<K>(t: Table, keys: map<K, RunId>, at: Time)
    ensures NothingToRecover(RecoveredRows(t, at), LiveKeys(keys, t))
  {
    var u := RecoveredRows(t, at);
    assert t.Keys == u.Keys;
    forall a | a in u ensures !u[a].status.Running? && !IsDangling(u, a) {
      SupersededAlike(t, u, a);
    }
    forall k | k in LiveKeys(keys, t) ensures HasRun(u, keys[k]) {
      RunsAlike(t, u, keys[k]);
    }
  }

  /** Only what needs recovery changes, along an allowed transition and in no other field than the three written. */
  lemma {:induction false} RecoveryIsMinimal<K>(t: Table, keys: map<K, RunId>, at: Time, a: Attempt, k: K)
    requires a in t && k in keys
    ensures
      var u := RecoveredRows(t, at);
      && u.Keys == t.Keys
      && (u[a] == t[a] <==> !t[a].status.Running? && !IsDangling(t, a))
      && (u[a] != t[a] ==> CanTransition(t[a].status, u[a].status) && u[a].status.Recoverable?)
      && u[a] == t[a].(status := u[a].status, finishedAt := u[a].finishedAt, error := u[a].error)
      && (IsDangling(t, a) ==> u[a] == t[a].(status := Recoverable))
      && (t[a].status.Running? ==>
            && u[a].status == Recoverable && u[a].finishedAt == Some(at)
            && (if t[a].error.None? || t[a].error == Some("") then
                  u[a].error == Some("interrupted: process exited while RUNNING")
                else u[a].error == t[a].error))
      && (IsDangling(t, a) <==>
            && t[a].status == Retrying && t[a].nextRetryAt.None?
            && forall b :: b in t && b.run == a.run ==> b.number <= a.number)
    ensures
      var live := LiveKeys(keys, t);
      (k in live <==> exists b :: b in t && b.run == keys[k]) && (k in live ==> live[k] == keys[k])
  {
  }

  /** Where nothing is left to recover, recovering changes nothing. */
  lemma {:induction false} NothingChanges<K>(t: Table, keys: map<K, RunId>, at: Time)
    requires NothingToRecover(t, keys)
    ensures RecoveredRows(t, at) == t && LiveKeys(keys, t) == keys
  {
  }

  /** A second recovery, at any later time, finds nothing and changes nothing. */
  lemma {:induction false} RecoveryIsIdempotent<K>(t: Table, keys: map<K, RunId>, at: Time, later: Time)
    ensures
      var u, live := RecoveredRows(t, at), LiveKeys(keys, t);
      RecoveredRows(u, later) == u && LiveKeys(live, u) == live
  {
    RecoveryIsComplete(t, keys, at);
    NothingChanges(RecoveredRows(t, at), LiveKeys(keys, t), later);
  }

  // ---------------- the three loops ----------------

  datatype Report<K> = Report(recovered: seq<Attempt>, released: set<K>, retries: seq<Attempt>)

  /** The rows once those in `done` are recovered. */
  function Partly(t: Table, done: set<Attempt>, at: Time): Table {
    map a | a in t :: if a in done then RecoveredRow(t, a, at) else t[a]
  }

  function Range(s: seq<Attempt>): set<Attempt> { set a | a in s }

  function RunningIn(t: Table): set<Attempt> { WithStatus(t, Running) }

  /** RUNNING rows first, then dangling retries as the table then stands, then orphan keys. */
  method RecoverInterrupted<K>(s: Store<K>, at: Time) returns (r: Report<K>)
    requires s.Valid()
    modifies s
    ensures s.Valid() && s.jobs == old(s.jobs) && s.ids == old(s.ids)
    ensures s.rows == RecoveredRows(old(s.rows), at) && s.keys == LiveKeys(old(s.keys), old(s.rows))
    ensures r.recovered == Select(s.ids, RunningIn(old(s.rows)))
    ensures r.retries == Select(s.ids, DanglingIn(old(s.rows)))
    ensures r.released == Orphans(old(s.keys), old(s.rows))
    ensures old(NothingToRecover(s.rows, s.keys)) ==>
      r == Report([], {}, []) && s.rows == old(s.rows) && s.keys == old(s.keys)
  {
    ghost var t := s.rows;
    var recovered := RecoverRunning(s, at);
    DanglingUnchanged(t, at);
    var retries := RecoverDangling(s, t, at);
    var orphans := Orphans(s.keys, s.rows);
    OrphansAreNotLive(s.keys, t, s.rows);
    ReleaseAll(s, orphans);
    r := Report(recovered, orphans, retries);
    NothingIsReported(s.ids, t, old(s.keys), at);
  }

  function Orphans<K>(keys: map<K, RunId>, t: Table): set<K> {
    set k | k in keys && !HasRun(t, keys[k])
  }

  lemma {:induction false} OrphansAreNotLive<K>(keys: map<K, RunId>, t: Table, u: Table)
    requires t.Keys == u.Keys
    ensures Orphans(keys, u) == Orphans(keys, t) && keys - Orphans(keys, t) == LiveKeys(keys, t)
  {
    forall k | k in keys ensures HasRun(t, keys[k]) <==> HasRun(u, keys[k]) {
      RunsAlike(t, u, keys[k]);
    }
  }

  lemma {:induction false} NothingIsReported<K>(ids: seq<Attempt>, t: Table, keys: map<K, RunId>, at: Time)
    ensures NothingToRecover(t, keys) ==>
      && Select(ids, RunningIn(t)) == [] && Select(ids, DanglingIn(t)) == [] && Orphans(keys, t) == {}
      && RecoveredRows(t, at) == t && LiveKeys(keys, t) == keys
  {
    if NothingToRecover(t, keys) {
      SelectNone(ids, RunningIn(t));
      SelectNone(ids, DanglingIn(t));
      NothingChanges(t, keys, at);
    }
  }

  /** The second query sees the same dangling rows as if the first loop had not run. */
  lemma {:induction false} DanglingUnchanged(t: Table, at: Time)
    ensures DanglingIn(Partly(t, RunningIn(t), at)) == DanglingIn(t)
  {
    var u := Partly(t, RunningIn(t), at);
    forall a | a in t ensures IsDangling(u, a) <==> IsDangling(t, a) {
      SupersededAlike(t, u, a);
    }
  }

  method RecoverRunning<K>(s: Store<K>, at: Time) returns (found: seq<Attempt>)
    requires s.Valid()
    modifies s`rows
    ensures s.Valid() && found == Select(s.ids, RunningIn(old(s.rows)))
    ensures s.rows == Partly(old(s.rows), RunningIn(old(s.rows)), at)
  {
    ghost var t := s.rows;
    found := s.ListByStatus(Running);
    Listed(s.ids, RunningIn(t));
    ghost var done: set<Attempt> := {};
    assert Partly(t, done, at) == t;
    for k := 0 to |found|
      invariant s.Valid() && s.rows == Partly(t, done, at) && done == Range(found[..k])
    {
      NotYet(found, k);
      MarkInterrupted(s, t, done, found[k], at);
      done := done + {found[k]};
    }
    assert found[..|found|] == found;
  }

  lemma {:induction false} Listed(ids: seq<Attempt>, want: set<Attempt>)
    requires Distinct(ids) && forall a :: a in want ==> a in ids
    ensures Distinct(Select(ids, want)) && Range(Select(ids, want)) == want
  {
    SelectDistinct(ids, want);
    forall a ensures a in Select(ids, want) <==> a in want {
      SelectHas(ids, want, a);
    }
  }

  lemma {:induction false} NotYet(found: seq<Attempt>, k: nat)
    requires Distinct(found) && k < |found|
    ensures found[k] in Range(found) && found[k] !in Range(found[..k])
    ensures Range(found[..k + 1]) == Range(found[..k]) + {found[k]}
  {
    assert found[..k + 1] == found[..k] + [found[k]];
  }

  lemma {:induction false} AllDone(t: Table, at: Time)
    ensures Partly(t, RunningIn(t) + DanglingIn(t), at) == RecoveredRows(t, at)
  {
  }

  method MarkInterrupted<K>(s: Store<K>, ghost t: Table, ghost done: set<Attempt>, a: Attempt, at: Time)
    requires s.Valid() && s.rows == Partly(t, done, at) && a in t && a !in done && t[a].status.Running?
    modifies s`rows
    ensures s.Valid() && s.rows == Partly(t, done + {a}, at)
  {
    var ex := s.rows[a];
    var status := Transition(ex.status, Recoverable);
    var error := if ex.error.Some? && ex.error.value != "" then ex.error else Some(INTERRUPTED);
    var _ := s.Update(ex.(status := status.value, finishedAt := Some(at), error := error));
  }

  method MarkDangling<K>(s: Store<K>, ghost t: Table, ghost done: set<Attempt>, a: Attempt, at: Time)
    requires s.Valid() && s.rows == Partly(t, done, at) && a in DanglingIn(t) && a !in done
    modifies s`rows
    ensures s.Valid() && s.rows == Partly(t, done + {a}, at)
  {
    var ex := s.rows[a];
    var status := Transition(ex.status, Recoverable);
    var _ := s.Update(ex.(status := status.value));
  }

  method RecoverDangling<K>(s: Store<K>, ghost t: Table, at: Time) returns (found: seq<Attempt>)
    requires s.Valid() && s.rows == Partly(t, RunningIn(t), at) && DanglingIn(s.rows) == DanglingIn(t)
    modifies s`rows
    ensures s.Valid() && found == Select(s.ids, DanglingIn(t)) && s.rows == RecoveredRows(t, at)
  {
    found := s.ListDangling();
    Listed(s.ids, DanglingIn(t));
    ghost var done := RunningIn(t);
    for k := 0 to |found|
      invariant s.Valid() && s.rows == Partly(t, done, at) && done == RunningIn(t) + Range(found[..k])
    {
      DanglingNext(t, found, k);
      MarkDangling(s, t, done, found[k], at);
      done := done + {found[k]};
    }
    assert found[..|found|] == found;
    AllDone(t, at);
  }

  lemma {:induction false} DanglingNext(t: Table, found: seq<Attempt>, k: nat)
    requires Distinct(found) && Range(found) == DanglingIn(t) && k < |found|
    ensures found[k] in DanglingIn(t) && found[k] !in RunningIn(t) + Range(found[..k])
    ensures RunningIn(t) + Range(found[..k]) + {found[k]} == RunningIn(t) + Range(found[..k + 1])
  {
    NotYet(found, k);
  }

  method ReleaseAll<K>(s: Store<K>, orphans: set<K>)
    modifies s`keys
    ensures s.keys == old(s.keys) - orphans
  {
    var left := orphans;
    while left != {}
      invariant left <= orphans && s.keys == old(s.keys) - (orphans - left)
    {
      var k :| k in left;
      var _ := s.Release(k);
      left := left - {k};
    }
  }
}
